/**
 * The Python values that flow through the two PLY front ends: the `value` of a
 * lexer token and the `p[0]` a grammar action builds.  Python's dynamic values are
 * closed into one datatype; a float is kept as the text handed to `float(...)`,
 * its numeric value is left abstract.
 */
module PyValue {

  datatype Value =
    | None                     // Python None (also the initial p[0] of every reduction)
    | Str(s: string)           // a str: matched text of a token
    | Int(i: int)              // an int: int(...) of a digit run
    | Float(text: string)      // float(text), value left abstract
    | Tuple(items: seq<Value>) // a tuple built by an action
    | List(items: seq<Value>)  // a list built by an action

}
