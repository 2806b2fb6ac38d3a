/** What trimming leaves, and when a rationale counts as given. */
module TextFacts {
  import opened Basics
  import opened Records

  ghost predicate AllWhite(s: string) { forall i :: 0 <= i < |s| ==> White(s[i]) }

  lemma {:induction false} StartTrimmed(s: string) returns (n: nat)
    ensures n <= |s| && TrimStart(s) == s[n..] && AllWhite(s[..n]) && (n < |s| ==> !White(s[n]))
    decreases |s|
  {
    if s != "" && White(s[0]) {
      var m := StartTrimmed(s[1..]);
      n := m + 1;
      assert s[1..][m..] == s[n..];
      forall i | 0 <= i < n ensures White(s[..n][i]) {
        if i > 0 { assert s[..n][i] == s[1..][..m][i - 1]; }
      }
    } else {
      n := 0;
    }
  }

  lemma {:induction false} EndTrimmed(s: string) returns (n: nat)
    ensures n <= |s| && TrimEnd(s) == s[..n] && AllWhite(s[n..]) && (n > 0 ==> !White(s[n - 1]))
    decreases |s|
  {
    if s != "" && White(s[|s| - 1]) {
      var rest := s[..|s| - 1];
      n := EndTrimmed(rest);
      assert rest[..n] == s[..n];
      forall i | 0 <= i < |s[n..]| ensures White(s[n..][i]) {
        if n + i < |rest| { assert s[n..][i] == rest[n..][i]; }
      }
    } else {
      n := |s|;
    }
  }

  /** Trimming cuts white space at both ends and nothing else: what is left starts and ends with other characters. */
  lemma TrimExactly(s: string) returns (lead: string, trail: string)
    ensures s == lead + Trim(s) + trail && AllWhite(lead) && AllWhite(trail)
    ensures var t := Trim(s); t != "" ==> !White(t[0]) && !White(t[|t| - 1])
  {
    var n := StartTrimmed(s);
    var rest := s[n..];
    var m := EndTrimmed(rest);
    lead, trail := s[..n], rest[m..];
    assert s == s[..n] + s[n..] && rest == rest[..m] + rest[m..];
  }

  /** A text is blank exactly when it holds white space only. */
  lemma BlankExactly(s: string)
    ensures Blank(s) <==> AllWhite(s)
  {
    var lead, trail := TrimExactly(s);
    var t := Trim(s);
    if t == "" {
      forall i | 0 <= i < |s| ensures White(s[i]) {
        assert s[i] == if i < |lead| then lead[i] else trail[i - |lead|];
      }
    } else {
      assert s[|lead|] == t[0];
    }
  }
}
