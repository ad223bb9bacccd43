/** JavaScript values and string operations as the server code uses them. */
module Js {

  /** A JavaScript value of type T that may also be `undefined` or `null`. */
  datatype Value<+T> = Undefined | Null | Defined(value: T)

  /** The outcome of a call that either returns a value or throws an error. */
  datatype Result<+T, +E> = Ok(value: T) | Err(error: E)

  /** JavaScript truthiness of a string-valued value: `undefined`, `null` and `""` are falsy. */
  predicate Truthy(v: Value<string>) {
    v.Defined? && v.value != ""
  }

  /** The expression `v || fallback` for a string-valued `v`. */
  function OrElse(v: Value<string>, fallback: string): (r: string)
    ensures Truthy(v) ==> r == v.value
    ensures !Truthy(v) ==> r == fallback
    ensures fallback != "" ==> r != ""
  {
    if Truthy(v) then v.value else fallback
  }

  /** A value as the database driver serialises it: `undefined` is sent as `null`. */
  function Serialized<T>(v: Value<T>): (w: Value<T>)
    ensures !w.Undefined?
    ensures v.Defined? ==> w == v
  {
    if v.Undefined? then Null else v
  }

  /** `t` occurs in `s` starting at index `i`. */
  predicate OccursAt(s: string, t: string, i: int) {
    0 <= i && i + |t| <= |s| && s[i..i + |t|] == t
  }

  /** `s.includes(t)`: scans `s` from the left for an occurrence of `t`. */
  function Includes(s: string, t: string): (b: bool)
    ensures b ==> |t| <= |s|
    ensures t == [] ==> b
    ensures t <= s ==> b
    decreases |s|
  {
    if |s| < |t| then false
    else s[..|t|] == t || Includes(s[1..], t)
  }

  /** The scan finds an occurrence exactly when one exists at some index. */
  lemma {:induction false} IncludesIff(s: string, t: string)
    ensures Includes(s, t) <==> exists i :: OccursAt(s, t, i)
    decreases |s|
  {
    if |s| < |t| {
    } else if s[..|t|] == t {
      assert OccursAt(s, t, 0);
    } else {
      IncludesIff(s[1..], t);
      forall i | OccursAt(s[1..], t, i)
        ensures OccursAt(s, t, i + 1)
      {
        assert s[1..][i..i + |t|] == s[i + 1..i + 1 + |t|];
      }
      forall i | OccursAt(s, t, i)
        ensures i > 0 && OccursAt(s[1..], t, i - 1)
      {
        assert s[..|t|] == s[0..|t|];
        assert s[1..][i - 1..i - 1 + |t|] == s[i..i + |t|];
      }
    }
  }

  /** Searching for a one-character string is a membership test. */
  lemma IncludesChar(s: string, c: char)
    ensures Includes(s, [c]) <==> c in s
  {
    IncludesIff(s, [c]);
    if c in s {
      var i :| 0 <= i < |s| && s[i] == c;
      assert s[i..i + 1] == [c];
      assert OccursAt(s, [c], i);
    }
    if exists i :: OccursAt(s, [c], i) {
      var i :| OccursAt(s, [c], i);
      assert s[i] == s[i..i + 1][0];
    }
  }
}
