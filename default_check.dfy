/** The placeholder test: a conductor ID counts as a default when one of the
    placeholder IDs occurs in it as a substring. */
module DefaultCheck {

  /** `sub` occurs somewhere in `s` (the string `in` operator). */
  predicate Contains(s: string, sub: string)
  {
    exists k :: 0 <= k <= |s| - |sub| && MatchesAt(s, sub, k)
  }

  /** `sub` occurs in `s` starting at position `k`. */
  predicate MatchesAt(s: string, sub: string, k: int)
  {
    0 <= k <= |s| - |sub| && s[k..k + |sub|] == sub
  }

  /** `condId` is a placeholder with respect to `defaults`: the first
      placeholder occurs in it, or one of the others makes it one. */
  predicate IsDefault(condId: string, defaults: seq<string>)
    ensures IsDefault(condId, defaults) ==> exists i :: 0 <= i < |defaults| && Contains(condId, defaults[i])
    decreases |defaults|
  {
    defaults != [] && (Contains(condId, defaults[0]) || IsDefault(condId, defaults[1..]))
  }

  /** Stops at the first placeholder that occurs in `condId`. */
  method CheckDefaultCond(condId: string, defaultIds: seq<string>) returns (defaultBool: bool)
    ensures defaultBool == IsDefault(condId, defaultIds)
    ensures defaultIds == [] ==> !defaultBool
  {
    defaultBool := false;
    for i := 0 to |defaultIds|
      invariant !defaultBool
      invariant IsDefault(condId, defaultIds) == IsDefault(condId, defaultIds[i..])
    {
      assert defaultIds[i..][1..] == defaultIds[i + 1..];
      if Contains(condId, defaultIds[i]) {
        defaultBool := true;
        break;
      }
    }
  }

  /** The placeholder test is an existential: some placeholder occurs in the ID. */
  lemma {:induction false} IsDefaultSome(condId: string, defaults: seq<string>)
    ensures IsDefault(condId, defaults) <==> exists i :: 0 <= i < |defaults| && Contains(condId, defaults[i])
    decreases |defaults|
  {
    if defaults != [] {
      IsDefaultSome(condId, defaults[1..]);
      assert forall i :: 0 < i < |defaults| ==> defaults[1..][i - 1] == defaults[i];
      if IsDefault(condId, defaults[1..]) {
        var i :| 0 <= i < |defaults[1..]| && Contains(condId, defaults[1..][i]);
        assert Contains(condId, defaults[i + 1]);
      }
    }
  }

  /** The test is a substring match: a placeholder anywhere inside an ID
      makes it a default, whatever surrounds it. */
  lemma {:induction false} ContainsInside(pre: string, sub: string, post: string)
    ensures Contains(pre + sub + post, sub)
  {
    var s := pre + sub + post;
    assert s[|pre|..|pre| + |sub|] == sub;
    assert MatchesAt(s, sub, |pre|);
  }

  /** With the run's placeholders, an ID that merely starts with "DEFAULT"
      is a default, and so is one that contains "N/A"; an ID shorter than
      every placeholder never is. */
  lemma SubstringNotEquality(id: string)
    ensures IsDefault("DEFAULT_1KV", ["DEFAULT", "N/A"])
    ensures IsDefault("336AL N/A", ["DEFAULT", "N/A"])
    ensures |id| < 3 ==> !IsDefault(id, ["DEFAULT", "N/A"])
  {
    var defaults := ["DEFAULT", "N/A"];
    ContainsInside("", "DEFAULT", "_1KV");
    assert "" + "DEFAULT" + "_1KV" == "DEFAULT_1KV";
    assert Contains("DEFAULT_1KV", defaults[0]);
    ContainsInside("336AL ", "N/A", "");
    assert "336AL " + "N/A" + "" == "336AL N/A";
    assert Contains("336AL N/A", defaults[1]);
  }
}
