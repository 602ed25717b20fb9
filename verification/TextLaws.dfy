/** What the string operations do, and how the reducer reads what agents and users say. */
module TextLaws {
  import opened Options
  import opened Text
  import opened Reducer

  // ---- Collapsing white space ----

  predicate NoBlanks(s: string) {
    forall i :: 0 <= i < |s| ==> !IsWhitespace(s[i])
  }

  lemma {:induction false} TrimBlank(w: string, s: string)
    requires IsBlank(w)
    ensures TrimStart(w + s) == TrimStart(s)
  {
    hide IsWhitespace;
    if w == "" {
      assert w + s == s;
    } else {
      assert (w + s)[1..] == w[1..] + s;
      TrimBlank(w[1..], s);
    }
  }

  lemma CollapseTrims(s: string)
    ensures CollapseWhitespace(s) == CollapseWhitespace(TrimStart(s))
  {
    hide IsWhitespace;
    TrimmedStays(s);
  }

  lemma {:induction false} TrimmedStays(s: string)
    ensures TrimStart(TrimStart(s)) == TrimStart(s)
  {
    if s != "" && IsWhitespace(s[0]) { TrimmedStays(s[1..]); }
  }

  /** White space before a text does not matter, and white space alone is nothing. */
  lemma CollapseDropsBlanks(w: string, s: string)
    requires IsBlank(w)
    ensures CollapseWhitespace(w + s) == CollapseWhitespace(s) && CollapseWhitespace(w) == ""
  {
    hide IsWhitespace;
    TrimBlank(w, s);
    TrimBlank(w, "");
    assert w + "" == w;
    CollapseTrims(w + s);
    CollapseTrims(s);
  }

  lemma {:induction false} WordIsWhole(word: string, rest: string)
    requires NoBlanks(word) && (rest == "" || IsWhitespace(rest[0]))
    ensures WordLength(word + rest) == |word|
  {
    hide IsWhitespace;
    if word != "" {
      assert (word + rest)[1..] == word[1..] + rest;
      WordIsWhole(word[1..], rest);
    }
  }

  /** A word comes first, and one space divides it from what else there is. */
  lemma CollapseKeepsWords(word: string, rest: string)
    requires word != "" && NoBlanks(word) && (rest == "" || IsWhitespace(rest[0]))
    ensures CollapseWhitespace(word + rest)
            == if CollapseWhitespace(rest) == "" then word else word + " " + CollapseWhitespace(rest)
  {
    hide IsWhitespace;
    var s := word + rest;
    assert s[0] == word[0] && TrimStart(s) == s;
    WordIsWhole(word, rest);
    assert s[..|word|] == word && s[|word|..] == rest;
  }

  /** A completed tool is summed up in at most 120 characters. */
  lemma SummaryExactly(outcome: string)
    ensures var words, summary := CollapseWhitespace(outcome), SummarizeCompletion(outcome);
            && 0 < |summary| <= 120
            && (words == "" ==> summary == "已完成")
            && (0 < |words| <= 120 ==> summary == words)
            && (|words| > 120 ==> |summary| == 120 && summary[..117] == words[..117] && summary[117..] == "...")
  {
    hide CollapseWhitespace;
  }

  // ---- Cutting ----

  /** A text within the limit stays; of a longer one the head stays, and how much was cut is said. */
  lemma CapExactly(s: string, max: nat)
    ensures |s| <= max ==> CapString(s, max) == s
    ensures |s| > max ==>
              && |CapString(s, max)| > max && CapString(s, max)[..max] == s[..max]
              && CapString(s, max)[max..] == "\n[... omitted " + Decimal(|s| - max) + " chars ...]"
  {
    hide Decimal;
    if |s| > max {
      var note := "\n[... omitted " + Decimal(|s| - max) + " chars ...]";
      assert CapString(s, max) == s[..max] + note;
    }
  }

  // ---- Answers ----

  /** `word`, in small letters, stands somewhere in the text, in letters of any size. */
  ghost predicate Says(s: string, word: string) {
    exists i: nat :: SaysAt(s, word, i)
  }

  predicate SaysAt(s: string, word: string, i: nat) {
    i + |word| <= |s| && forall k :: 0 <= k < |word| ==> LowerChar(s[i + k]) == word[k]
  }

  lemma LowerContains(s: string, word: string)
    ensures Contains(Lower(s), word) <==> Says(s, word)
  {
    hide LowerChar;
    var lower := Lower(s);
    forall i: nat
      ensures i <= |lower| - |word| && word <= lower[i..] <==> SaysAt(s, word, i)
    {
      if i + |word| <= |s| { assert lower[i..][..|word|] == lower[i..i + |word|]; }
    }
  }

  /** Which answers let a tool run: they say so, and say nothing against it. */
  lemma AllowsExactly(outcome: string)
    ensures AllowsExecution(outcome)
            <==> && (Says(outcome, "allow") || Says(outcome, "approved") || Says(outcome, "default")
                     || StartsWith(Trim(Lower(outcome)), "permission selected: yes"))
                 && !Says(outcome, "reject") && !Says(outcome, "deny") && !Says(outcome, "cancel")
  {
    hide Contains, Says, Lower, Trim;
    LowerContains(outcome, "allow");
    LowerContains(outcome, "approved");
    LowerContains(outcome, "default");
    LowerContains(outcome, "reject");
    LowerContains(outcome, "deny");
    LowerContains(outcome, "cancel");
  }

  /** A rejection made here is kept when the agent later reports that it resolved to an allowance. */
  lemma KeepsRejectExactly(decision: string, outcome: string)
    ensures !KeepsLocalReject(None, outcome)
    ensures KeepsLocalReject(Some(decision), outcome)
            <==> && (Says(decision, "reject") || Says(decision, "deny"))
                 && Says(outcome, "permission resolved") && (Says(outcome, "allow") || Says(outcome, "default"))
  {
    hide Contains, Says, Lower;
    LowerContains(decision, "reject");
    LowerContains(decision, "deny");
    LowerContains(outcome, "permission resolved");
    LowerContains(outcome, "allow");
    LowerContains(outcome, "default");
  }
}
