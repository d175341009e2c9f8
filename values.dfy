/**
 * The dynamically typed values that the providers and the manifest store in
 * Go's `map[string]interface{}`.
 */
module Values {

  /**
   * One `interface{}` value: a string, a boolean, or any other value
   * (number, list, nested map) that no modelled code inspects, named by an
   * opaque tag.
   */
  datatype Value = Str(s: string) | Bool(b: bool) | Other(tag: string)

  /** A name wrapped in double quotes, as `fmt.Sprintf("\"%s\"", s)` writes it. */
  function Quote(s: string): (q: string)
    ensures |q| == |s| + 2 && q[0] == '"' && q[|q| - 1] == '"' && q[1..|q| - 1] == s
  {
    "\"" + s + "\""
  }

  /**
   * A Go map passed by reference: a callee that writes to it changes what
   * the caller sees.
   */
  class Dict {
    var entries: map<string, Value>

    constructor (entries: map<string, Value>)
      ensures this.entries == entries
    {
      this.entries := entries;
    }
  }
}
