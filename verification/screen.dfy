/**
 The keyword safety screen of the chat turn handler (`extreme_serious_input`).

 A prompt is "serious" when one of a fixed list of keywords occurs in it as a
 raw substring: matching is case-sensitive and there is no tokenising, so
 "no harm done" trips the screen while "SUICIDE" does not.
 */
module SafetyScreen {

  /** The fixed keyword list, in the order the screen tries them. */
  const Keywords: seq<string> := ["death", "suicide", "harm", "kill", "attack"]

  /** `k` occurs in `s` starting at index `i`. */
  predicate OccursAt(k: string, s: string, i: nat)
  {
    i + |k| <= |s| && s[i..i + |k|] == k
  }

  /** Declarative substring relation: `k` occurs somewhere in `s`. */
  ghost predicate Occurs(k: string, s: string)
  {
    exists i: nat :: OccursAt(k, s, i)
  }

  /** The specification of the screen: some keyword is a substring of the prompt. */
  ghost predicate Serious(prompt: string)
  {
    exists k :: k in Keywords && Occurs(k, prompt)
  }

  /** Python's `k in s` on two strings: a left-to-right search for `k` in `s`. */
  function Contains(s: string, k: string): (r: bool)
    ensures r <==> Occurs(k, s)
  {
    ContainsFrom(s, k, 0)
  }

  /** Search for `k` in `s` at indices `i` and beyond. */
  function ContainsFrom(s: string, k: string, i: nat): (r: bool)
    ensures r <==> exists j: nat :: i <= j && OccursAt(k, s, j)
    decreases |s| - i
  {
    if i + |k| > |s| then false
    else if s[i..i + |k|] == k then assert OccursAt(k, s, i); true
    else ContainsFrom(s, k, i + 1)
  }

  /**
   The screen as the docstring and the comment above it describe it: try each
   keyword in turn and report true at the first one contained in the prompt.
   The source tests the whole list instead of the loop variable; that version
   is modelled in module AsWritten.
   */
  method ExtremeSeriousInput(prompt: string) returns (serious: bool)
    ensures serious <==> Serious(prompt)
  {
    for j := 0 to |Keywords|
      invariant forall m :: 0 <= m < j ==> !Occurs(Keywords[m], prompt)
    {
      var keyword := Keywords[j];
      if Contains(prompt, keyword) {
        return true;
      }
    }
    return false;
  }

  /** A keyword trips the screen wherever it stands, whatever surrounds it. */
  lemma KeywordAnywhereTrips(pre: string, k: string, post: string)
    requires k in Keywords
    ensures Serious(pre + k + post)
  {
    var s := pre + k + post;
    assert s[|pre|..|pre| + |k|] == k;
    assert OccursAt(k, s, |pre|);
  }

  predicate IsLower(c: char)
  {
    'a' <= c <= 'z'
  }

  /** Matching is case-sensitive: a prompt without lower-case letters is never serious. */
  lemma NoLowerCaseNeverSerious(prompt: string)
    requires forall i :: 0 <= i < |prompt| ==> !IsLower(prompt[i])
    ensures !Serious(prompt)
  {
    forall k, i: nat | k in Keywords
      ensures !OccursAt(k, prompt, i)
    {
      if i + |k| <= |prompt| {
        assert IsLower(k[0]);
        assert prompt[i..i + |k|][0] == prompt[i];
      }
    }
  }

  /** No tokenising: "harm" inside "no harm done" trips the screen. */
  lemma NoHarmDoneTrips()
    ensures Serious("no harm done")
  {
    KeywordAnywhereTrips("no ", "harm", " done");
    assert "no " + "harm" + " done" == "no harm done";
  }

  /** Case-sensitive: "SUICIDE" in upper case does not trip the screen. */
  lemma UpperCaseSuicidePasses()
    ensures !Serious("SUICIDE")
  {
    NoLowerCaseNeverSerious("SUICIDE");
  }

  /** The empty prompt never trips the screen (every keyword is non-empty). */
  lemma EmptyPromptPasses()
    ensures !Serious("")
  {
    NoLowerCaseNeverSerious("");
  }
}
