/** Values shared by every component: nullable values, the exceptions the
    services throw, and the few .NET string routines the core relies on
    (string.IsNullOrWhiteSpace, string.Join, ToLowerInvariant). */
module Common {

  /** A .NET reference or nullable value that may be null. */
  datatype Option<+T> = None | Some(value: T)

  /** The exceptions the core throws, by kind. `Vendor` stands for any
      failure reported by the Azure SDK (not found, network, auth);
      `NullReference` for dereferencing a null value. */
  datatype Error =
    | ArgumentNull(param: string)
    | Argument(message: string)
    | KeyNotFound(key: string)
    | InvalidOperation(message: string)
    | Vendor(message: string)
    | NullReference

  /** A call that either returns a value or throws. */
  datatype Result<+T> = Ok(value: T) | Err(error: Error)

  /** char.IsWhiteSpace: the Unicode space separators, line and paragraph
      separators, U+0009..U+000D, U+0085 and U+00A0. */
  predicate IsWhiteSpace(c: char)
  {
    || ('\t' <= c <= '\r')
    || c == ' ' || c == '\U{0085}' || c == '\U{00A0}' || c == '\U{1680}'
    || ('\U{2000}' <= c <= '\U{200A}')
    || c == '\U{2028}' || c == '\U{2029}' || c == '\U{202F}' || c == '\U{205F}'
    || c == '\U{3000}'
  }

  /** string.IsNullOrWhiteSpace on a non-null string. */
  predicate IsBlank(s: string)
  {
    forall i :: 0 <= i < |s| ==> IsWhiteSpace(s[i])
  }

  /** string.IsNullOrWhiteSpace on a nullable string. */
  predicate IsNullOrWhiteSpace(s: Option<string>)
  {
    s.None? || IsBlank(s.value)
  }

  /** `s ?? ""` */
  function OrEmpty(s: Option<string>): (r: string)
    ensures s.Some? ==> r == s.value
    ensures s.None? ==> r == ""
  {
    if s.Some? then s.value else ""
  }

  /** string.Join(sep, parts): the parts in order, with `sep` between
      neighbours. Defined from the right so that a loop that appends one
      part at a time can be related to it directly. */
  function Join(sep: string, parts: seq<string>): string
  {
    if |parts| == 0 then ""
    else if |parts| == 1 then parts[0]
    else Join(sep, parts[..|parts| - 1]) + sep + parts[|parts| - 1]
  }

  /** `t` occurs in `s` starting at offset `i`. */
  predicate OccursAt(s: string, t: string, i: int)
  {
    0 <= i <= |s| - |t| && s[i..i + |t|] == t
  }

  /** `t` occurs in `s` at some offset. */
  ghost predicate Contains(s: string, t: string)
  {
    exists i :: OccursAt(s, t, i)
  }

  lemma ContainsConcat(a: string, t: string, b: string)
    ensures Contains(a + t + b, t)
  {
    var s := a + t + b;
    assert OccursAt(s, t, |a|);
  }

  /** A string contains what any of its pieces contain. */
  lemma ContainsWithin(a: string, m: string, b: string, t: string)
    requires Contains(m, t)
    ensures Contains(a + m + b, t)
  {
    var i :| OccursAt(m, t, i);
    var s := a + m + b;
    assert s[|a| + i..|a| + i + |t|] == m[i..i + |t|];
    assert OccursAt(s, t, |a| + i);
  }

  /** Every part of a join occurs in the joined string. */
  lemma {:induction false} JoinContainsPart(sep: string, parts: seq<string>, k: nat)
    requires k < |parts|
    ensures Contains(Join(sep, parts), parts[k])
  {
    var joined := Join(sep, parts);
    if |parts| == 1 {
      assert OccursAt(joined, parts[k], 0);
    } else {
      var init := parts[..|parts| - 1];
      var front := Join(sep, init);
      assert joined == front + (sep + parts[|parts| - 1]);
      if k == |parts| - 1 {
        assert joined[|front| + |sep|..] == parts[k];
        assert OccursAt(joined, parts[k], |front| + |sep|);
      } else {
        assert init[k] == parts[k];
        JoinContainsPart(sep, init, k);
        var i :| OccursAt(front, parts[k], i);
        assert joined[..|front|] == front;
        assert joined[i..i + |parts[k]|] == front[i..i + |parts[k]|];
        assert OccursAt(joined, parts[k], i);
      }
    }
  }

  /** Appending one part to a non-empty list adds the separator and the part. */
  lemma JoinSnoc(sep: string, parts: seq<string>, x: string)
    ensures Join(sep, parts + [x]) == if |parts| == 0 then x else Join(sep, parts) + sep + x
  {
    assert (parts + [x])[..|parts|] == parts;
  }

  /** ASCII upper-case letters map to lower case; every other character is kept. */
  function ToLowerChar(c: char): (r: char)
    ensures !('A' <= r <= 'Z')
    ensures 'a' <= r <= 'z' <==> ('a' <= c <= 'z' || 'A' <= c <= 'Z')
  {
    if 'A' <= c <= 'Z' then (c as int - 'A' as int + 'a' as int) as char else c
  }

  /** ToLowerInvariant, restricted to the ASCII letters. */
  function ToLower(s: string): (r: string)
    ensures |r| == |s|
    ensures forall i :: 0 <= i < |s| ==> r[i] == ToLowerChar(s[i])
  {
    if |s| == 0 then "" else [ToLowerChar(s[0])] + ToLower(s[1..])
  }

  /** Lower-casing twice is lower-casing once. */
  lemma ToLowerIdempotent(s: string)
    ensures ToLower(ToLower(s)) == ToLower(s)
  {
  }
}
