/**
 * The status-message classifier of the dashboard (`get_status_message_color`):
 * the status flag a vehicle last reported becomes the colour and the text of
 * the label that shows it on the general page.
 */
module StatusMessages {

  /** The colour (a style-sheet colour name) and the text a label is drawn with. */
  datatype Display = Display(color: string, text: string)

  // The three recognised status flags, written in lower case.
  const Running := "running"
  const NoConnection := "no connection"
  const Waiting := "waiting"

  const NoMessageText := "No message to be read"
  const UnrecognizedPrefix := "Status flag unrecognized: "

  /** The colours the classifier can answer with. */
  const StatusColors: set<string> := {"green", "red", "yellow", "orange", "blue"}

  /** Lower-cases an ASCII letter and leaves every other character alone. */
  function LowerChar(c: char): char {
    if 'A' <= c <= 'Z' then (c as int + 32) as char else c
  }

  /** Upper-cases an ASCII letter and leaves every other character alone. */
  function UpperChar(c: char): char {
    if 'a' <= c <= 'z' then (c as int - 32) as char else c
  }

  /** ASCII lower-casing of a whole string, character by character. */
  function ToLower(s: string): (r: string)
    ensures |r| == |s|
    ensures forall i :: 0 <= i < |s| ==> r[i] == LowerChar(s[i])
  {
    if s == [] then [] else [LowerChar(s[0])] + ToLower(s[1..])
  }

  /** `p` is made of lower-case ASCII letters and spaces only. */
  predicate LowerCasePhrase(p: string) {
    forall i :: 0 <= i < |p| ==> 'a' <= p[i] <= 'z' || p[i] == ' '
  }

  /** `s` spells the lower-case `phrase` with each letter in either case. */
  predicate SpelledInAnyCase(s: string, phrase: string) {
    |s| == |phrase| &&
    forall i :: 0 <= i < |s| ==> s[i] == phrase[i] || s[i] == UpperChar(phrase[i])
  }

  /** The message is none of the three recognised flags, in any letter case. */
  predicate Unrecognized(message: string) {
    message != "" &&
    !SpelledInAnyCase(message, Running) &&
    !SpelledInAnyCase(message, NoConnection) &&
    !SpelledInAnyCase(message, Waiting)
  }

  /**
   * The colour and text of a status label. The three flags are compared after
   * lower-casing; the empty message and every other message have a fallback.
   */
  function Classify(message: string): (d: Display)
    ensures d.color in StatusColors
  {
    var lower := ToLower(message);
    if lower == Running then Display("green", message)
    else if lower == NoConnection then Display("red", message)
    else if lower == Waiting then Display("yellow", message)
    else if message == "" then Display("orange", NoMessageText)
    else Display("blue", UnrecognizedPrefix + message)
  }

  /** Comparing after lower-casing is the same as accepting every letter case. */
  lemma LowerMatchesIffSpelled(s: string, p: string)
    requires LowerCasePhrase(p)
    ensures ToLower(s) == p <==> SpelledInAnyCase(s, p)
  {
    if ToLower(s) == p {
      forall i | 0 <= i < |s|
        ensures s[i] == p[i] || s[i] == UpperChar(p[i])
      {
        assert LowerChar(s[i]) == p[i];
      }
    }
    if SpelledInAnyCase(s, p) {
      forall i | 0 <= i < |s|
        ensures ToLower(s)[i] == p[i]
      {
        assert s[i] == p[i] || s[i] == UpperChar(p[i]);
      }
    }
  }

  lemma PhrasesAreLowerCase()
    ensures LowerCasePhrase(Running)
    ensures LowerCasePhrase(NoConnection)
    ensures LowerCasePhrase(Waiting)
  {
  }

  /**
   * Each colour is chosen by exactly one kind of input: the three flags in
   * any letter case, the empty message, and everything else.
   */
  lemma ClassifyBranches(s: string)
    ensures Classify(s).color == "green" <==> SpelledInAnyCase(s, Running)
    ensures Classify(s).color == "red" <==> SpelledInAnyCase(s, NoConnection)
    ensures Classify(s).color == "yellow" <==> SpelledInAnyCase(s, Waiting)
    ensures Classify(s).color == "orange" <==> s == ""
    ensures Classify(s).color == "blue" <==> Unrecognized(s)
  {
    PhrasesAreLowerCase();
    LowerMatchesIffSpelled(s, Running);
    LowerMatchesIffSpelled(s, NoConnection);
    LowerMatchesIffSpelled(s, Waiting);
  }

  /**
   * A recognised flag is shown as received, the empty message as the
   * no-message text, and any other message verbatim after a fixed prefix.
   */
  lemma ClassifyText(s: string)
    ensures (SpelledInAnyCase(s, Running) || SpelledInAnyCase(s, NoConnection) ||
             SpelledInAnyCase(s, Waiting)) ==> Classify(s).text == s
    ensures s == "" ==> Classify(s).text == NoMessageText
    ensures Unrecognized(s) ==> Classify(s).text == UnrecognizedPrefix + s
  {
    ClassifyBranches(s);
  }

  /** No two different messages are drawn alike: the label identifies the flag received. */
  lemma ClassifyInjective(a: string, b: string)
    requires Classify(a) == Classify(b)
    ensures a == b
  {
    ClassifyBranches(a);
    ClassifyBranches(b);
    ClassifyText(a);
    ClassifyText(b);
    if Classify(a).color == "blue" {
      var p := UnrecognizedPrefix;
      assert (p + a)[|p|..] == a;
      assert (p + b)[|p|..] == b;
    }
  }
}
