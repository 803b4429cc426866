/** Option, Result and the exceptions the modelled code raises. */
module Base {

  datatype Option<+T> = None | Some(value: T)

  /** A Python exception, by the condition that raises it. */
  datatype Error =
    /** ValueError: a property string has no '=' (the item name, when known). */
    | MissingEquals(item: Option<string>)
    /** ValueError: a property name outside the names the entry accepts. */
    | InvalidProperty(name: string)
    /** ValueError: a value holds '[' but no ']'. */
    | MissingBracket(name: string)
    /** Exception: non-section text before the first section header (line index). */
    | ContentBeforeSection(line: nat)
    /** ValueError (legacy parser): an open bracket without a close bracket (line index). */
    | OpenBracket(line: nat)
    /** KeyError on a dictionary lookup; `None` stands for Python's None key. */
    | KeyError(key: Option<string>)
    /** IndexError: a bracketed trigger value with more than three words. */
    | IndexError
    /** AttributeError: a string method called on a non-string value. */
    | AttributeError
    /** TypeError: an operation applied to a value of the wrong type. */
    | TypeError
    /** ValueError: a checker built without the `value` or `config` keyword. */
    | MissingKeyword(keyword: string)
    /** ValueError or TypeError raised by a cast to the named type. */
    | CastFailed(typ: string)
    /** ValueError: a type name with no checker or no cast branch. */
    | UnknownType(typ: string)
    /** ValueError: a `<type>` annotation outside the recognised types. */
    | UnrecognizedType(text: string)
    /** ValueError: a setting string without '='. */
    | NoSetting(text: string)
    /** ValueError: unpacking a split into a fixed number of names failed. */
    | UnpackError
    /** IOError: neither master files, modules nor a master config were given. */
    | NoMasterConfig
    /** ValueError: changelog entries that do not match the master config. */
    | InvalidChanges(mismatches: seq<string>)
    /** UnboundLocalError: a local variable read before any assignment. */
    | UnboundLocal(name: string)
    /** IOError: the config file named does not exist. */
    | MissingFile(path: string)

  datatype Result<+T> = Ok(value: T) | Err(error: Error) {
    predicate IsFailure() { Err? }
    function PropagateFailure<U>(): Result<U> requires Err? { Err(error) }
    function Extract(): T requires Ok? { value }
  }
}
