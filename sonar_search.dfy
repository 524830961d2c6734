/**
 * The search agent's `search` capability: the first answer's text, followed
 * by a numbered list of the cited sources when the response has any. The
 * HTTP call is the parameter `response`.
 */
module SonarSearch {
  import opened Wrappers
  import opened Js
  import opened Text
  import Decimal

  /** The parts of a chat-completion response that are read: `citations` (possibly absent) and each choice's `message.content`. */
  datatype Completion = Completion(citations: Option<seq<string>>, choices: seq<string>)

  /**
   * The text between the answer and the list. The template writes `\C`,
   * a non-special escape that stands for `C` alone, so the header is a
   * newline, "Citations:" and a newline.
   */
  const CITATIONS_HEADER := "\nCitations:\n"

  /** The TypeError message of `result.choices[0].message` when there is no choice. */
  const NO_CHOICE_ERROR := "Cannot read properties of undefined (reading 'message')"

  /** `` `[${index + 1}] ${url}` ``: the citation at 0-based position `i`, numbered from 1. */
  function CitationLine(i: nat, url: string): string {
    "[" + Decimal.NatToString(i + 1) + "] " + url
  }

  /** The citation lines for `urls`, the first numbered as position `start`. */
  function CitationLinesFrom(urls: seq<string>, start: nat): (lines: seq<string>)
    ensures |lines| == |urls|
    ensures forall i :: 0 <= i < |urls| ==> lines[i] == CitationLine(start + i, urls[i])
  {
    seq(|urls|, i requires 0 <= i < |urls| => CitationLine(start + i, urls[i]))
  }

  /** `citations.map(...).join('\n')`. */
  function CitationBlock(urls: seq<string>): string {
    Join(CitationLinesFrom(urls, 0), "\n")
  }

  /** The answer, and after it the citation list when there are citations. */
  function AppendCitations(content: string, citations: seq<string>): (r: string)
    ensures StartsWith(r, content)
    ensures |citations| == 0 ==> r == content
    ensures |citations| > 0 ==> r == content + CITATIONS_HEADER + CitationBlock(citations)
  {
    if |citations| > 0 then
      var r := content + (CITATIONS_HEADER + CitationBlock(citations));
      assert r[..|content|] == content;
      r
    else content
  }

  /** The `search` capability: a failed request, or a response without choices, rejects; otherwise the formatted answer. */
  function Search(response: Outcome<Completion>): (r: Outcome<string>)
    ensures response.Threw? ==> r == Threw(response.message)
    ensures response.Returned? && |response.value.choices| == 0 ==> r == Threw(Some(NO_CHOICE_ERROR))
    ensures response.Returned? && |response.value.choices| > 0 ==>
      r.Returned? && StartsWith(r.value, response.value.choices[0])
    ensures response.Returned? && |response.value.choices| > 0 && response.value.citations.GetOr([]) == [] ==>
      r == Returned(response.value.choices[0])
    ensures response.Returned? && |response.value.choices| > 0 && response.value.citations.GetOr([]) != [] ==>
      r == Returned(response.value.choices[0] + CITATIONS_HEADER + CitationBlock(response.value.citations.value))
  {
    match response
    case Threw(message) => Threw(message)
    case Returned(result) =>
      var citations := result.citations.GetOr([]);
      if |result.choices| == 0 then Threw(Some(NO_CHOICE_ERROR))
      else Returned(AppendCitations(result.choices[0], citations))
  }

  // ---------------------------------------------------------------------
  // Reading the list back: the formatting loses neither a source nor its position

  /** Reads `[n] url` back into its number and url. */
  function ParseCitationLine(line: string): Option<(nat, string)> {
    if |line| == 0 || line[0] != '[' then None
    else match IndexOf(line, ']')
      case None => None
      case Some(j) =>
        if j + 1 < |line| && line[j + 1] == ' ' then
          match Decimal.ParseNat(line[1..j])
          case None => None
          case Some(n) => Some((n, line[j + 2..]))
        else None
  }

  /** Reads consecutive lines numbered from `start + 1` back into their urls. */
  function ParseCitationLines(lines: seq<string>, start: nat): Option<seq<string>>
    decreases |lines|
  {
    if |lines| == 0 then Some([])
    else match ParseCitationLine(lines[0])
      case None => None
      case Some(entry) =>
        if entry.0 != start + 1 then None
        else match ParseCitationLines(lines[1..], start + 1)
          case None => None
          case Some(rest) => Some([entry.1] + rest)
  }

  function ParseCitationBlock(block: string): Option<seq<string>> {
    ParseCitationLines(Split(block, '\n'), 0)
  }

  /** Each line reads back as its 1-based number and its url, whatever the url holds. */
  lemma CitationLineRoundTrip(i: nat, url: string)
    ensures ParseCitationLine(CitationLine(i, url)) == Some((i + 1, url))
  {
    var digits := Decimal.NatToString(i + 1);
    var line := CitationLine(i, url);
    var j := 1 + |digits|;
    assert line == "[" + digits + "] " + url;
    assert line[j] == ']' && line[j + 1] == ' ';
    assert ']' !in line[..j] by {
      assert line[..j] == "[" + digits;
      forall k | 0 <= k < |digits| ensures digits[k] != ']' {
        assert Decimal.IsDigit(digits[k]);
      }
    }
    var found := IndexOf(line, ']');
    assert found == Some(j);
    assert line[1..j] == digits;
    assert line[j + 2..] == url;
    Decimal.NatToStringRoundTrip(i + 1);
  }

  lemma {:induction false} CitationLinesRoundTrip(urls: seq<string>, start: nat)
    ensures ParseCitationLines(CitationLinesFrom(urls, start), start) == Some(urls)
    decreases |urls|
  {
    var lines := CitationLinesFrom(urls, start);
    if |urls| > 0 {
      CitationLineRoundTrip(start, urls[0]);
      assert lines[1..] == CitationLinesFrom(urls[1..], start + 1);
      CitationLinesRoundTrip(urls[1..], start + 1);
      assert [urls[0]] + urls[1..] == urls;
    }
  }

  /** A line break in a citation line can only come from its url. */
  lemma CitationLineSingleLine(i: nat, url: string)
    requires '\n' !in url
    ensures '\n' !in CitationLine(i, url)
  {
  }

  /**
   * The citation list reads back as exactly the cited urls, in order, as
   * long as no url contains a line break.
   */
  lemma CitationBlockRoundTrip(urls: seq<string>)
    requires |urls| > 0
    requires forall i :: 0 <= i < |urls| ==> '\n' !in urls[i]
    ensures ParseCitationBlock(CitationBlock(urls)) == Some(urls)
  {
    var lines := CitationLinesFrom(urls, 0);
    forall i | 0 <= i < |lines| ensures '\n' !in lines[i] {
      CitationLineSingleLine(i, urls[i]);
    }
    assert "\n" == ['\n'];
    SplitJoin(lines, '\n');
    CitationLinesRoundTrip(urls, 0);
  }
}
