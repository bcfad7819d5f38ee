/** The few JavaScript string semantics the two entry points rely on. */
module JsText {
  import opened Wrappers

  /** JavaScript truthiness of a value that is a string or `undefined`: both `undefined` and `""` are falsy. */
  predicate Truthy(v: Option<string>)
    ensures Truthy(v) <==> v != None && v != Some("")
  {
    v.Some? && v.value != ""
  }

  /** What a template literal `${v}` yields: the string itself, or the text "undefined". */
  function Interpolate(v: Option<string>): (s: string)
    ensures v.Some? ==> s == v.value
    ensures v.None? ==> s == "undefined"
  {
    match v
    case Some(s) => s
    case None => "undefined"
  }

  /** `s.startsWith(prefix)`: the first `|prefix|` characters of `s` are `prefix`. */
  predicate StartsWith(s: string, prefix: string)
    ensures StartsWith(s, prefix) <==> |prefix| <= |s| && s[..|prefix|] == prefix
  {
    prefix <= s
  }

  /** True when `sub` occurs in `s` at position `i`. */
  predicate OccursAt(s: string, sub: string, i: int) {
    0 <= i && i + |sub| <= |s| && s[i..i + |sub|] == sub
  }

  /** `s.includes(sub)`, computed by trying every start position in turn. */
  function Includes(s: string, sub: string): (r: bool)
    ensures r <==> exists i :: OccursAt(s, sub, i)
    decreases |s|
  {
    if |s| < |sub| then
      assert forall i :: !OccursAt(s, sub, i);
      false
    else if s[..|sub|] == sub then
      assert OccursAt(s, sub, 0);
      true
    else
      var rest := Includes(s[1..], sub);
      assert forall i :: 1 <= i ==> (OccursAt(s, sub, i) <==> OccursAt(s[1..], sub, i - 1));
      assert !OccursAt(s, sub, 0);
      assert rest ==> exists i :: OccursAt(s, sub, i) by {
        if rest {
          var j :| OccursAt(s[1..], sub, j);
          assert OccursAt(s, sub, j + 1);
        }
      }
      rest
  }

  /** A prefix is in particular an occurrence: whatever `startsWith` accepts, `includes` accepts too. */
  lemma StartsWithImpliesIncludes(s: string, sub: string)
    requires StartsWith(s, sub)
    ensures Includes(s, sub)
  {
    assert OccursAt(s, sub, 0);
  }
}
