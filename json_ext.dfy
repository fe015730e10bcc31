/** The `.json` extension test used to normalise the store's file name: a
    global regular expression `/(\.json)$/g`, built anew on every call, whose
    `test` is applied to the file name. */
module JsonExt {

  const Ext: string := ".json"

  /** The name ends with the five characters `.json` (case-sensitively). */
  predicate EndsWithExt(s: string)
  {
    |s| >= |Ext| && s[|s| - |Ext|..] == Ext
  }

  /** The pattern `(\.json)$` matches at index `i`: the characters from `i`
      on are exactly `.json`, so the match ends at the end of the input. */
  predicate MatchesAt(s: string, i: nat)
  {
    i + |Ext| == |s| && s[i..] == Ext
  }

  /** What `regex.test` reports, and the regex's `lastIndex` afterwards. */
  datatype Outcome = Outcome(matched: bool, lastIndex: nat)

  /** `RegExp.prototype.test` on a global regex whose `lastIndex` is
      `lastIndex`: the match is tried at each index from `lastIndex` on; a
      match moves `lastIndex` to its end, a failure resets it to 0. */
  function Test(s: string, lastIndex: nat): (r: Outcome)
    ensures r.matched <==> EndsWithExt(s) && lastIndex + |Ext| <= |s|
    ensures r.lastIndex == if r.matched then |s| else 0
    decreases |s| + 1 - lastIndex
  {
    if lastIndex > |s| then Outcome(false, 0)
    else if MatchesAt(s, lastIndex) then Outcome(true, lastIndex + |Ext|)
    else Test(s, lastIndex + 1)
  }

  /** The exported predicate: a fresh regex, so the scan starts at index 0. */
  function HasJsonExt(filename: string): (b: bool)
    ensures b <==> EndsWithExt(filename)
  {
    Test(filename, 0).matched
  }

  /** Appending `.json` always gives a name the predicate accepts. */
  lemma ExtAppended(s: string)
    ensures HasJsonExt(s + Ext)
  {
    assert (s + Ext)[|s + Ext| - |Ext|..] == Ext;
  }

  /** The match is case-sensitive and anchored at the end only. */
  lemma Examples()
    ensures HasJsonExt("data.json") && HasJsonExt(".json")
    ensures !HasJsonExt("data") && !HasJsonExt("data.JSON") && !HasJsonExt("a.json.bak")
    ensures !HasJsonExt("json") && !HasJsonExt("")
  {
    assert "data.json"[4..] == Ext;
    assert ".json"[0..] == Ext;
    assert "data.JSON"[4..] != Ext by { assert "data.JSON"[5] != Ext[1]; }
    assert "a.json.bak"[5..] != Ext by { assert "a.json.bak"[5] != Ext[0]; }
  }

  /** Because each call builds its own regex, repeated calls agree. Were one
      global regex shared between calls, a name that matched once would fail
      the next test, which starts from the `lastIndex` the match left behind. */
  lemma SharedRegexWouldAlternate(s: string)
    requires HasJsonExt(s)
    ensures !Test(s, Test(s, 0).lastIndex).matched
    ensures Test(s, Test(s, Test(s, 0).lastIndex).lastIndex) == Test(s, 0)
  {
  }
}
