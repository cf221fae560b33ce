/** How a text representation becomes the one line a list row shows. */
module Preview {
  import opened Wrappers

  const PREVIEW_CHARS := 160
  const ELLIPSIS: char := '\U{2026}'

  /** The characters Unicode calls white space. */
  predicate IsSpace(c: char) {
    || '\U{0009}' <= c <= '\U{000D}' || c == ' ' || c == '\U{0085}' || c == '\U{00A0}' || c == '\U{1680}'
    || '\U{2000}' <= c <= '\U{200A}' || c == '\U{2028}' || c == '\U{2029}' || c == '\U{202F}'
    || c == '\U{205F}' || c == '\U{3000}'
  }

  /** The maximal runs of characters that are no `space`, in order. */
  function Words(space: char -> bool, text: string): seq<string> {
    if text == [] then []
    else
      var front, last := text[..|text| - 1], text[|text| - 1];
      var ws := Words(space, front);
      if space(last) then ws
      else if ws == [] || space(front[|front| - 1]) then ws + [[last]]
      else Lengthened(ws, last)
  }

  function Lengthened(ws: seq<string>, c: char): seq<string>
    requires ws != []
  {
    ws[..|ws| - 1] + [ws[|ws| - 1] + [c]]
  }

  /** The words with one space between neighbours. */
  function Spaced(words: seq<string>): string {
    if words == [] then ""
    else if |words| == 1 then words[0]
    else Spaced(words[..|words| - 1]) + [' '] + words[|words| - 1]
  }

  /** At most 160 characters, cut before a word's character and never before its space. */
  function Cut(line: string): string {
    if |line| <= PREVIEW_CHARS then line
    else if line[PREVIEW_CHARS] == ' ' then line[..PREVIEW_CHARS + 1] + [ELLIPSIS]
    else line[..PREVIEW_CHARS] + [ELLIPSIS]
  }

  function Collapsed(space: char -> bool, text: string): string {
    Spaced(Words(space, text))
  }

  lemma LengthenedHasLetters(ws: seq<string>, c: char)
    requires ws != [] && forall w <- ws :: w != []
    ensures forall w <- Lengthened(ws, c) :: w != []
  {
    var longer := Lengthened(ws, c);
    forall i | 0 <= i < |longer|
      ensures longer[i] != []
    {
      if i < |ws| - 1 {
        assert longer[i] == ws[i] && ws[i] in ws;
      }
    }
  }

  lemma {:induction false} WordsHaveLetters(space: char -> bool, text: string)
    ensures forall w <- Words(space, text) :: w != []
    ensures text == [] ==> Words(space, text) == []
  {
    if text != [] {
      var ws := Words(space, text[..|text| - 1]);
      WordsHaveLetters(space, text[..|text| - 1]);
      if ws != [] {
        LengthenedHasLetters(ws, text[|text| - 1]);
      }
    }
  }

  lemma WordsOfOneMore(space: char -> bool, text: string, c: char)
    ensures var ws := Words(space, text);
      Words(space, text + [c]) ==
        if space(c) then ws
        else if ws == [] || space(text[|text| - 1]) then ws + [[c]]
        else Lengthened(ws, c)
    ensures text == [] ==> Words(space, text) == []
  {
    assert (text + [c])[..|text|] == text;
  }

  lemma SpacedNotEmpty(ws: seq<string>)
    requires ws != [] && ws[|ws| - 1] != []
    ensures Spaced(ws) != ""
  {
  }

  lemma SpacedMore(ws: seq<string>, c: char)
    requires ws != []
    ensures Spaced(ws + [[c]]) == Spaced(ws) + [' ', c]
  {
    assert (ws + [[c]])[..|ws|] == ws;
    assert Spaced(ws) + [' '] + [c] == Spaced(ws) + [' ', c];
  }

  lemma SpacedLonger(ws: seq<string>, c: char)
    requires ws != []
    ensures Spaced(Lengthened(ws, c)) == Spaced(ws) + [c]
  {
    var n := |ws| - 1;
    var longer, last := Lengthened(ws, c), ws[n] + [c];
    assert longer[..n] == ws[..n] && longer[n] == last && |longer| == n + 1;
    if n > 0 {
      Regroup(Spaced(ws[..n]) + [' '], ws[n], [c]);
    }
  }

  /** What one more character does to the collapsed line. */
  function Stepped(space: char -> bool, line: string, afterSpace: bool, c: char): string {
    if space(c) then line
    else if line != "" && afterSpace then line + [' ', c]
    else line + [c]
  }

  lemma CollapsedStep(space: char -> bool, text: string, c: char)
    ensures Collapsed(space, text + [c])
         == Stepped(space, Collapsed(space, text), text != [] && space(text[|text| - 1]), c)
    ensures Collapsed(space, text) == "" <==> Words(space, text) == []
  {
    var ws := Words(space, text);
    WordsHaveLetters(space, text);
    WordsOfOneMore(space, text, c);
    if ws != [] {
      assert ws[|ws| - 1] in ws;
      SpacedNotEmpty(ws);
      SpacedMore(ws, c);
      SpacedLonger(ws, c);
    }
  }

  /** The collapsed line only grows as more of the text is read. */
  lemma {:induction false} CollapsedGrows(space: char -> bool, text: string, n: nat)
    requires n <= |text|
    ensures Collapsed(space, text[..n]) <= Collapsed(space, text)
    decreases |text| - n
  {
    if n < |text| {
      assert text[..n + 1] == text[..n] + [text[n]];
      CollapsedStep(space, text[..n], text[n]);
      CollapsedGrows(space, text, n + 1);
    } else {
      assert text[..n] == text;
    }
  }

  /** What cutting a longer line leaves, once 160 characters and the next one are known. */
  lemma CutIsDecided(line: string, known: string, c: char)
    requires known + [c] <= line && |known| >= PREVIEW_CHARS && c != ' '
    requires |known| == PREVIEW_CHARS || (|known| == PREVIEW_CHARS + 1 && known[PREVIEW_CHARS] == ' ')
    ensures Cut(line) == known + [ELLIPSIS]
  {
    assert line[|known|] == c;
    assert line[..|known|] == known;
  }

  /** After `i` characters: the line so far, and whether a space is owed before the next word. */
  predicate Reading(space: char -> bool, text: string, i: nat, line: string, owed: bool)
    requires i <= |text|
  {
    && line == Collapsed(space, text[..i])
    && (owed <==> line != "" && i > 0 && space(text[i - 1]))
  }

  lemma ReadOne(space: char -> bool, text: string, i: nat, line: string, owed: bool)
    requires i < |text| && Reading(space, text, i, line, owed)
    ensures space(text[i]) ==> Reading(space, text, i + 1, line, line != "")
    ensures !space(text[i]) ==>
      var longer := (if owed then line + [' '] else line) + [text[i]];
      Reading(space, text, i + 1, longer, false) && longer <= Collapsed(space, text)
  {
    assert text[..i + 1] == text[..i] + [text[i]];
    CollapsedStep(space, text[..i], text[i]);
    CollapsedGrows(space, text, i + 1);
    assert line + [' '] + [text[i]] == line + [' ', text[i]];
  }

  /** One pass over the characters: the line is the text's words, one space between them, cut at 160. */
  method Preview(text: string) returns (out: string)
    ensures out == Cut(Collapsed(IsSpace, text))
  {
    out := PreviewBy(IsSpace, text);
  }

  method PreviewBy(space: char -> bool, text: string) returns (out: string)
    requires space(' ')
    ensures out == Cut(Collapsed(space, text))
  {
    out := "";
    var pendingSpace := false;
    var taken := 0;
    for i := 0 to |text|
      invariant Reading(space, text, i, out, pendingSpace)
      invariant taken == |out| <= PREVIEW_CHARS
    {
      var c := text[i];
      ReadOne(space, text, i, out, pendingSpace);
      if space(c) {
        pendingSpace := out != "";
        continue;
      }
      if pendingSpace {
        out := out + [' '];
        taken := taken + 1;
        pendingSpace := false;
      }
      if taken >= PREVIEW_CHARS {
        CutIsDecided(Collapsed(space, text), out, c);
        return out + [ELLIPSIS];
      }
      out := out + [c];
      taken := taken + 1;
    }
    assert text[..|text|] == text;
  }

  /** At most 162 characters; a line that fits is not cut, and one that does not is shown to its 160th. */
  lemma PreviewIsShort(line: string)
    ensures |Cut(line)| <= PREVIEW_CHARS + 2
    ensures |line| <= PREVIEW_CHARS ==> Cut(line) == line
    ensures |line| > PREVIEW_CHARS ==>
      line[..PREVIEW_CHARS] <= Cut(line) && Cut(line)[|Cut(line)| - 1] == ELLIPSIS
  {
  }

  /** Collapsing keeps every word, in order, and leaves nothing more to collapse. */
  lemma {:induction false} CollapsingKeepsWords(space: char -> bool, text: string)
    requires space(' ')
    ensures Words(space, Collapsed(space, text)) == Words(space, text)
    ensures Collapsed(space, Collapsed(space, text)) == Collapsed(space, text)
    ensures Collapsed(space, text) != "" ==> !space(Collapsed(space, text)[|Collapsed(space, text)| - 1])
  {
    if text != [] {
      var front, c := text[..|text| - 1], text[|text| - 1];
      var line := Collapsed(space, front);
      assert text == front + [c];
      CollapsingKeepsWords(space, front);
      CollapsedStep(space, front, c);
      WordsOfOneMore(space, front, c);
      if !space(c) {
        WordsOfOneMore(space, line, c);
        WordsOfOneMore(space, line, ' ');
        WordsOfOneMore(space, line + [' '], c);
        assert line + [' '] + [c] == line + [' ', c];
      }
    }
  }
}
