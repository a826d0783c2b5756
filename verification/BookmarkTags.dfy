/** `NormalizeBookmarkTags` of internal/pixiv/bookmarks.go. */
module BookmarkTags {
  import opened Naming

  predicate IsWhite(c: char) { IsSpace(c as int) }

  predicate HasWhite(t: string) { exists i :: 0 <= i < |t| && IsWhite(t[i]) }

  /** `strings.TrimSpace`. */
  function Trim(t: string): (r: string)
    ensures |r| <= |t|
    ensures !HasWhite(t) ==> r == t
  {
    hide IsSpace;
    if t != [] && IsWhite(t[0]) then Trim(t[1..])
    else if t != [] && IsWhite(t[|t| - 1]) then Trim(t[..|t| - 1])
    else t
  }

  /** Trimmed, non-empty tags in the order of their first occurrence. */
  function Kept(tags: seq<string>): (r: seq<string>)
  {
    if tags == [] then []
    else
      var front, t := Kept(tags[..|tags| - 1]), Trim(tags[|tags| - 1]);
      if t == "" || t in front then front else front + [t]
  }

  predicate AnyWhite(tags: seq<string>) { exists i :: 0 <= i < |tags| && HasWhite(tags[i]) }

  /** What the App-API's space-separated encoding can carry. */
  predicate Encodable(tags: seq<string>) { !AnyWhite(Kept(tags)) && |Kept(tags)| <= 10 }

  method Normalize(tags: seq<string>) returns (r: Result<seq<string>>)
    ensures r == if Encodable(tags) then Ok(Kept(tags)) else Rejected
  {
    hide Trim, HasWhite;
    var next: seq<string> := [];
    var i := 0;
    while i < |tags|
      invariant 0 <= i <= |tags| && next == Kept(tags[..i]) && !AnyWhite(next)
    {
      assert tags[..i + 1][..i] == tags[..i];
      var t := Trim(tags[i]);
      if t != "" && t !in next {
        if HasWhite(t) {
          assert Kept(tags[..i + 1]) == next + [t] && HasWhite((next + [t])[i - i + |next|]);
          KeptGrows(tags, i + 1);
          return Rejected;
        }
        next := next + [t];
      }
      i := i + 1;
    }
    assert tags[..|tags|] == tags;
    if |next| > 10 {
      return Rejected;
    }
    r := Ok(next);
  }

  lemma {:induction false} KeptGrows(tags: seq<string>, n: nat)
    requires n <= |tags|
    ensures Kept(tags[..n]) <= Kept(tags)
    ensures AnyWhite(Kept(tags[..n])) ==> AnyWhite(Kept(tags))
    decreases |tags|
  {
    hide Trim, HasWhite;
    if n < |tags| {
      KeptGrows(tags[..|tags| - 1], n);
      assert tags[..|tags| - 1][..n] == tags[..n];
    } else {
      assert tags[..n] == tags;
    }
  }

  /** No tag twice, none empty. */
  lemma {:induction false} KeptDistinct(tags: seq<string>)
    ensures forall i, k :: 0 <= i < k < |Kept(tags)| ==> Kept(tags)[i] != Kept(tags)[k]
    ensures "" !in Kept(tags)
    ensures forall t :: t in Kept(tags) <==> t != "" && exists i :: 0 <= i < |tags| && Trim(tags[i]) == t
  {
    hide Trim;
    if tags != [] {
      var n := |tags| - 1;
      KeptDistinct(tags[..n]);
      forall t ensures t in Kept(tags) <==> t != "" && exists i :: 0 <= i < |tags| && Trim(tags[i]) == t {
        if i :| 0 <= i < |tags| && Trim(tags[i]) == t && i < n {
          assert tags[..n][i] == tags[i];
        }
        if t in Kept(tags[..n]) {
          var i :| 0 <= i < n && Trim(tags[..n][i]) == t;
          assert Trim(tags[i]) == t;
        }
      }
    }
  }

  /** Normalizing what was accepted changes nothing. */
  lemma {:induction false} NormalizeIdempotent(tags: seq<string>)
    requires !AnyWhite(tags) && "" !in tags && forall i, k :: 0 <= i < k < |tags| ==> tags[i] != tags[k]
    ensures Kept(tags) == tags
  {
    hide Trim;
    if tags != [] {
      var n := |tags| - 1;
      assert tags == tags[..n] + [tags[n]];
      assert forall i :: 0 <= i < n ==> tags[..n][i] == tags[i];
      NormalizeIdempotent(tags[..n]);
      assert Trim(tags[n]) == tags[n];
      assert tags[n] !in tags[..n];
    }
  }

  lemma AcceptedIsFixed(tags: seq<string>)
    requires Encodable(tags)
    ensures Encodable(Kept(tags)) && Kept(Kept(tags)) == Kept(tags)
  {
    hide Trim, HasWhite, Kept;
    KeptDistinct(tags);
    NormalizeIdempotent(Kept(tags));
  }
}
