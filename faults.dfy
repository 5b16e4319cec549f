/** The exceptions the loader helper's own Python code raises, as values. The errors sqlite3
    raises when it cannot bind a parameter are not among them. */
module Faults {

  datatype Fault =
    /** Python's TypeError: subscripting or iterating something that is not a dict or a
        list, comparing a str with None, `float(None)` or `int(None)`. */
    | TypeError
    /** Python's KeyError on `d[key]` when `key` is absent. */
    | KeyError(key: string)
    /** Python's AttributeError: `.get` or `.items()` on something that is not a dict. */
    | AttributeError
    /** The ValueError that `float(s)` or `int(s)` raises on a string it cannot parse. */
    | ConversionError
    /** The ValueError that `alphav_loader` raises for a source type outside
        {stocks, fx, crypto, commodity}. */
    | InvalidSourceType(sourceType: string)
}
