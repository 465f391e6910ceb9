/** Result types, text tests and sequence mapping shared by the models. */
module Common {
  datatype Option<+T> = None | Some(value: T)

  /** `Err` stands for a thrown error; its code is the one the JavaScript error carries. */
  datatype Result<+T, +E> = Ok(value: T) | Err(error: E)

  /** The whitespace String.prototype.trim removes. */
  predicate IsSpace(c: char) {
    c == ' ' || '\t' <= c <= '\r' || c == '\U{A0}' || c == '\U{1680}' || '\U{2000}' <= c <= '\U{200A}'
    || c == '\U{2028}' || c == '\U{2029}' || c == '\U{202F}' || c == '\U{205F}' || c == '\U{3000}' || c == '\U{FEFF}'
  }

  predicate NonBlank(s: string) {
    exists i :: 0 <= i < |s| && !IsSpace(s[i])
  }

  /** Array.prototype.map. */
  function Mapped<A, B>(s: seq<A>, f: A -> B): (r: seq<B>)
    ensures |r| == |s| && forall i :: 0 <= i < |s| ==> r[i] == f(s[i])
  {
    seq(|s|, i requires 0 <= i < |s| => f(s[i]))
  }
}
