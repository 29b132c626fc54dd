/**
 * The "Did you mean ...?" sentence appended to error messages
 * (atgql/pyutils/did_you_mean.py).
 */
module DidYouMean {
  import opened Wrappers
  import opened Text

  /** At most this many suggestions are listed. */
  const MaxSuggestions: nat := 5

  const Lead: string := " Did you mean "

  function Quote(s: string): string {
    "\"" + s + "\""
  }

  function QuoteAll(suggestions: seq<string>): (r: seq<string>)
    ensures |r| == |suggestions| && forall k :: 0 <= k < |r| ==> r[k] == Quote(suggestions[k])
  {
    if suggestions == [] then [] else [Quote(suggestions[0])] + QuoteAll(suggestions[1..])
  }

  /**
   * `did_you_mean(suggestions)` (`subMessage == None`) and
   * `did_you_mean(sub_message, suggestions)` (`subMessage == Some(m)`).
   */
  function DidYouMean(subMessage: Option<string>, suggestions: seq<string>): (r: string)
    ensures r == "" <==> |suggestions| == 0
  {
    var message := if subMessage.Some? then Lead + subMessage.value + " " else Lead;
    var quoted := QuoteAll(suggestions);
    if |quoted| == 0 then "" else message + Listing(quoted)
  }

  /** The quoted suggestions as listed after the lead-in, with the closing '?'. */
  function Listing(quoted: seq<string>): string
    requires |quoted| > 0
  {
    if |quoted| == 1 then quoted[0] + "?"
    else if |quoted| == 2 then quoted[0] + " or " + quoted[1] + "?"
    else
      var selected := quoted[..if |quoted| < MaxSuggestions then |quoted| else MaxSuggestions];
      Join(selected[..|selected| - 1], ", ") + ", or " + selected[|selected| - 1] + "?"
  }


  /** No suggestions, no sentence. */
  lemma NoSuggestions(subMessage: Option<string>)
    ensures DidYouMean(subMessage, []) == ""
  {
  }

  /** Every sentence starts with ' Did you mean ' and ends with '?'. */
  lemma SentenceShape(subMessage: Option<string>, suggestions: seq<string>)
    requires |suggestions| > 0
    ensures var r := DidYouMean(subMessage, suggestions);
      |r| > |Lead| && r[..|Lead|] == Lead && r[|r| - 1] == '?'
  {
  }

  /** A sub-message goes right after ' Did you mean ', followed by one space; the rest is unchanged. */
  lemma SubMessageInserted(m: string, suggestions: seq<string>)
    requires |suggestions| > 0
    ensures DidYouMean(Some(m), suggestions) == Lead + m + " " + DidYouMean(None, suggestions)[|Lead|..]
  {
    var listing := Listing(QuoteAll(suggestions));
    assert (Lead + listing)[|Lead|..] == listing;
  }

  /** Only the first five suggestions matter. */
  lemma OnlyFirstFive(subMessage: Option<string>, suggestions: seq<string>)
    requires |suggestions| > MaxSuggestions
    ensures DidYouMean(subMessage, suggestions) == DidYouMean(subMessage, suggestions[..MaxSuggestions])
  {
    var all := QuoteAll(suggestions);
    var five := QuoteAll(suggestions[..MaxSuggestions]);
    assert all[..MaxSuggestions] == five;
    assert five[..MaxSuggestions] == five;
  }

  /** The list reads '"A", "B", ..., or "E"': each listed suggestion quoted, in order. */
  lemma ListedInOrder(subMessage: Option<string>, suggestions: seq<string>)
    requires |suggestions| >= 3
    ensures var n := if |suggestions| < MaxSuggestions then |suggestions| else MaxSuggestions;
      var message := if subMessage.Some? then Lead + subMessage.value + " " else Lead;
      DidYouMean(subMessage, suggestions) ==
        message + Join(QuoteAll(suggestions[..n - 1]), ", ") + ", or " + Quote(suggestions[n - 1]) + "?"
  {
    var n := if |suggestions| < MaxSuggestions then |suggestions| else MaxSuggestions;
    assert QuoteAll(suggestions)[..n][..n - 1] == QuoteAll(suggestions[..n - 1]);
  }

  lemma QuotedLetters()
    ensures Quote("A") == "\"A\"" && Quote("B") == "\"B\"" && Quote("C") == "\"C\""
    ensures Quote("D") == "\"D\"" && Quote("E") == "\"E\"" && Quote("F") == "\"F\""
  {
  }

  /** The cases of the source's test suite. */
  lemma Examples()
    ensures DidYouMean(None, ["A"]) == " Did you mean \"A\"?"
    ensures DidYouMean(None, ["A", "B"]) == " Did you mean \"A\" or \"B\"?"
    ensures DidYouMean(Some("the letter"), ["A"]) == " Did you mean the letter \"A\"?"
  {
    QuotedLetters();
    assert QuoteAll(["A"]) == ["\"A\""];
    assert QuoteAll(["A", "B"]) == ["\"A\"", "\"B\""];
  }

  lemma ThreeExample()
    ensures DidYouMean(None, ["A", "B", "C"]) == " Did you mean \"A\", \"B\", or \"C\"?"
  {
    QuotedLetters();
    var q := QuoteAll(["A", "B", "C"]);
    assert q == ["\"A\"", "\"B\"", "\"C\""];
    assert q[..3][..2] == ["\"A\"", "\"B\""];
    assert Join(["\"A\"", "\"B\""], ", ") == "\"A\", \"B\"" by {
      assert Join(["\"B\""], ", ") == "\"B\"";
    }
  }

  lemma JoinFour()
    ensures Join(["\"A\"", "\"B\"", "\"C\"", "\"D\""], ", ") == "\"A\", \"B\", \"C\", \"D\""
  {
    var four := ["\"A\"", "\"B\"", "\"C\"", "\"D\""];
    assert Join(four[3..], ", ") == "\"D\"";
    assert Join(four[2..], ", ") == "\"C\", \"D\"";
    assert Join(four[1..], ", ") == "\"B\", \"C\", \"D\"";
  }

  lemma QuotedSix()
    ensures QuoteAll(["A", "B", "C", "D", "E", "F"]) == ["\"A\"", "\"B\"", "\"C\"", "\"D\"", "\"E\"", "\"F\""]
  {
    QuotedLetters();
  }

  lemma ListingSix()
    ensures Listing(["\"A\"", "\"B\"", "\"C\"", "\"D\"", "\"E\"", "\"F\""]) == "\"A\", \"B\", \"C\", \"D\", or \"E\"?"
  {
    JoinFour();
    var q := ["\"A\"", "\"B\"", "\"C\"", "\"D\"", "\"E\"", "\"F\""];
    assert q[..5][..4] == ["\"A\"", "\"B\"", "\"C\"", "\"D\""];
  }

  lemma LimitExample()
    ensures DidYouMean(None, ["A", "B", "C", "D", "E", "F"]) == Lead + "\"A\", \"B\", \"C\", \"D\", or \"E\"?"
  {
    QuotedSix();
    ListingSix();
  }
}
