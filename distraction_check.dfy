/**
 * The yes/no rule by which the second blocker asks Gemini whether a site is
 * distracting. The request itself is an oracle: a function from the API key
 * and the prompt text to the reply text, `None` standing for every way the
 * request can fail (a network error, a response that is not ok, a body
 * without `candidates[0].content.parts[0].text`).
 */
module DistractionCheck {
  import opened Results
  import opened Text

  const Yes := "yes"

  /** What the question says after the site. */
  const Question := " a distracting website that should be blocked to maintain focus? Answer with only 'yes' or 'no'."

  /** The question sent for a site. */
  function Prompt(site: string): string {
    "Is " + site + Question
  }

  /** `answer.toLowerCase().trim() === 'yes'`, with every failure counting as no. */
  predicate IsYes(reply: Option<string>) {
    reply.Some? && JsTrim(Lower(reply.value)) == Yes
  }

  /** `checkIfDistracting(site, apiKey)`: the verdict on the model's reply to the prompt. */
  predicate CheckIfDistracting(site: string, apiKey: string, gemini: (string, string) -> Option<string>) {
    IsYes(gemini(apiKey, Prompt(site)))
  }

  lemma FailureIsNo()
    ensures !IsYes(None)
  {
  }

  /** A reply whose trimmed lower case is `w` is `w` in some letter case with only whitespace around it. */
  lemma TrimmedReplyShape(t: string, w: string) returns (i: nat, j: nat)
    requires JsTrim(Lower(t)) == w
    ensures i <= j <= |t| && AllSpace(t[..i], IsJsSpace) && Lower(t[i..j]) == w && AllSpace(t[j..], IsJsSpace)
  {
    var k := TrimSplits(Lower(t), IsJsSpace);
    i, j := k, k + |w|;
    LowerSlice(t, i, j);
    LowerPrefix(t, i);
    LowerKeepsSpace(t[..i]);
    LowerSuffix(t, j);
    LowerKeepsSpace(t[j..]);
  }

  /** `yes` in any letter case with only whitespace around it is a yes reply. */
  lemma PaddedYesIsYes(t: string, i: nat, j: nat)
    requires i <= j <= |t| && AllSpace(t[..i], IsJsSpace) && Lower(t[i..j]) == Yes && AllSpace(t[j..], IsJsSpace)
    ensures IsYes(Some(t))
  {
    assert t == t[..i] + t[i..j] + t[j..];
    LowerAppend(t[..i] + t[i..j], t[j..]);
    LowerAppend(t[..i], t[i..j]);
    LowerKeepsSpace(t[..i]);
    LowerKeepsSpace(t[j..]);
    assert Bare(Yes, IsJsSpace);
    TrimPadded(Lower(t[..i]), Yes, Lower(t[j..]), IsJsSpace);
  }

  /**
   * A reply counts as yes exactly when it is `yes` in any letter case,
   * surrounded only by whitespace.
   */
  lemma IsYesIff(t: string)
    ensures IsYes(Some(t)) <==>
            exists i: nat, j: nat :: i <= j <= |t| && AllSpace(t[..i], IsJsSpace)
                                     && Lower(t[i..j]) == Yes && AllSpace(t[j..], IsJsSpace)
  {
    if IsYes(Some(t)) {
      var i, j := TrimmedReplyShape(t, Yes);
    }
    if exists i: nat, j: nat :: i <= j <= |t| && AllSpace(t[..i], IsJsSpace)
                                && Lower(t[i..j]) == Yes && AllSpace(t[j..], IsJsSpace) {
      var i: nat, j: nat :| i <= j <= |t| && AllSpace(t[..i], IsJsSpace)
                            && Lower(t[i..j]) == Yes && AllSpace(t[j..], IsJsSpace);
      PaddedYesIsYes(t, i, j);
    }
  }

  /** Any other word, such as a bare `no`, counts as no. */
  lemma OtherWordsAreNo(t: string)
    requires Bare(t, IsJsSpace) && Lower(t) != Yes
    ensures !IsYes(Some(t))
  {
    if t != [] {
      LowerCharKeepsSpace(t[0]);
      LowerCharKeepsSpace(t[|t| - 1]);
    }
    assert Bare(Lower(t), IsJsSpace);
    TrimBareIsIdentity(Lower(t), IsJsSpace);
  }
}
