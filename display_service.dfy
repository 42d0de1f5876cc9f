/** The display service: greedy word wrapping for the fallback colour
    image, the refresh of the colour and black-and-white panels, and the
    status report built from the last-refresh stamps.  The panels, the
    image rendering and the stamp files are abstract: a refresh attempt is
    given as the fault it raises (if any), and a stamp file as its
    optional content. */
module DisplayService {
  import opened Wrappers
  import opened PyText
  import opened Sequences

  // ---------------------------------------------------------------------
  // Word wrapping

  /** A font either measures a line with `getsize` or lacks that method, in
      which case the wrapper estimates ten pixels per character. */
  datatype Font = Measured(width: string -> nat) | Unmeasured

  function Measure(font: Font, line: string): nat {
    match font
    case Measured(width) => width(line)
    case Unmeasured => |line| * 10
  }

  predicate Fits(font: Font, maxWidth: int, line: string) {
    Measure(font, line) <= maxWidth
  }

  /** The greedy packing the wrapper performs, as groups of words: `done`
      holds the finished lines, `current` the line being filled.  A word
      joins the current line when the joined line fits; otherwise the
      current line is closed and the word starts the next one, except that
      a word that does not fit on an empty line is emitted alone. */
  function Pack(font: Font, maxWidth: int, done: seq<seq<string>>, current: seq<string>,
                words: seq<string>): seq<seq<string>>
    decreases |words|
  {
    if words == [] then
      if current == [] then done else done + [current]
    else
      var w := words[0];
      if Fits(font, maxWidth, Join(" ", current + [w])) then
        Pack(font, maxWidth, done, current + [w], words[1..])
      else if current != [] then
        Pack(font, maxWidth, done + [current], [w], words[1..])
      else
        Pack(font, maxWidth, done + [[w]], [], words[1..])
  }

  /** The word groups of the wrapped lines of `text`. */
  function WrapGroups(font: Font, text: string, maxWidth: int): seq<seq<string>> {
    Pack(font, maxWidth, [], [], Split(text))
  }

  /** Each group rendered as one line, its words separated by single spaces. */
  function Lines(groups: seq<seq<string>>): (lines: seq<string>)
    ensures |lines| == |groups|
    ensures forall k :: 0 <= k < |groups| ==> lines[k] == Join(" ", groups[k])
  {
    seq(|groups|, k requires 0 <= k < |groups| => Join(" ", groups[k]))
  }

  /** A group the wrapper may emit: one or more words, and if more than
      one, the joined line passed the width test. */
  predicate GoodGroup(font: Font, maxWidth: int, g: seq<string>) {
    g != [] && AllWords(g) && (|g| >= 2 ==> Fits(font, maxWidth, Join(" ", g)))
  }

  predicate AllGood(font: Font, maxWidth: int, groups: seq<seq<string>>) {
    forall k :: 0 <= k < |groups| ==> GoodGroup(font, maxWidth, groups[k])
  }

  /** Packing emits only good groups. */
  lemma {:induction false} PackGood(font: Font, maxWidth: int, done: seq<seq<string>>,
                                    current: seq<string>, words: seq<string>)
    requires AllGood(font, maxWidth, done)
    requires AllWords(current) && (|current| >= 2 ==> Fits(font, maxWidth, Join(" ", current)))
    requires AllWords(words)
    ensures AllGood(font, maxWidth, Pack(font, maxWidth, done, current, words))
    decreases |words|
  {
    if words != [] {
      var w := words[0];
      assert IsWord(w);
      assert AllWords(words[1..]) by {
        forall k | 0 <= k < |words[1..]| ensures IsWord(words[1..][k]) {
          assert words[1..][k] == words[k + 1];
        }
      }
      if Fits(font, maxWidth, Join(" ", current + [w])) {
        assert AllWords(current + [w]);
        PackGood(font, maxWidth, done, current + [w], words[1..]);
      } else if current != [] {
        assert AllGood(font, maxWidth, done + [current]);
        PackGood(font, maxWidth, done + [current], [w], words[1..]);
      } else {
        assert AllGood(font, maxWidth, done + [[w]]);
        PackGood(font, maxWidth, done + [[w]], [], words[1..]);
      }
    }
  }

  /** Packing keeps the words in order, dropping and repeating none. */
  lemma {:induction false} PackConcat(font: Font, maxWidth: int, done: seq<seq<string>>,
                                      current: seq<string>, words: seq<string>)
    ensures Concat(Pack(font, maxWidth, done, current, words)) == Concat(done) + current + words
    decreases |words|
  {
    if words == [] {
      if current != [] {
        ConcatSnoc(done, current);
      }
    } else {
      var w := words[0];
      assert words == [w] + words[1..];
      if Fits(font, maxWidth, Join(" ", current + [w])) {
        PackConcat(font, maxWidth, done, current + [w], words[1..]);
      } else if current != [] {
        ConcatSnoc(done, current);
        PackConcat(font, maxWidth, done + [current], [w], words[1..]);
      } else {
        ConcatSnoc(done, [w]);
        PackConcat(font, maxWidth, done + [[w]], [], words[1..]);
      }
    }
  }

  /** All words of a list of lines, in order: the lines' `split()` results
      concatenated. */
  function WordsOf(lines: seq<string>): seq<string> {
    if lines == [] then [] else WordsOf(lines[..|lines| - 1]) + Split(lines[|lines| - 1])
  }

  lemma {:induction false} WordsOfLines(font: Font, maxWidth: int, groups: seq<seq<string>>)
    requires AllGood(font, maxWidth, groups)
    ensures WordsOf(Lines(groups)) == Concat(groups)
  {
    if groups != [] {
      var n := |groups| - 1;
      WordsOfLines(font, maxWidth, groups[..n]);
      assert Lines(groups)[..n] == Lines(groups[..n]);
      SplitJoin(groups[n]);
    }
  }

  /** `_wrap_text`: split the text on whitespace and pack the words
      greedily into lines that fit `maxWidth` under the font's measure. */
  method WrapText(text: string, font: Font, maxWidth: int) returns (lines: seq<string>)
    ensures lines == Lines(WrapGroups(font, text, maxWidth))
  {
    var words := Split(text);
    lines := [];
    var current: seq<string> := [];
    ghost var done: seq<seq<string>> := [];
    var i := 0;
    while i < |words|
      invariant 0 <= i <= |words|
      invariant lines == Lines(done)
      invariant Pack(font, maxWidth, done, current, words[i..]) == WrapGroups(font, text, maxWidth)
    {
      var word := words[i];
      var testLine := Join(" ", current + [word]);
      assert words[i..][1..] == words[i + 1..];
      if Measure(font, testLine) <= maxWidth {
        current := current + [word];
      } else if current != [] {
        lines := lines + [Join(" ", current)];
        done := done + [current];
        current := [word];
      } else {
        lines := lines + [word];
        done := done + [[word]];
      }
      i := i + 1;
    }
    if current != [] {
      lines := lines + [Join(" ", current)];
      done := done + [current];
    }
  }

  lemma WrapGroupsGood(font: Font, text: string, maxWidth: int)
    ensures AllGood(font, maxWidth, WrapGroups(font, text, maxWidth))
    ensures Concat(WrapGroups(font, text, maxWidth)) == Split(text)
    ensures Split(text) != [] ==> WrapGroups(font, text, maxWidth) != []
  {
    PackGood(font, maxWidth, [], [], Split(text));
    PackConcat(font, maxWidth, [], [], Split(text));
    assert Concat([]) + [] + Split(text) == Split(text);
  }

  /** The words of the wrapped lines, read in order, are exactly the words
      of the text: nothing is dropped, repeated or reordered. */
  lemma WrapKeepsWords(font: Font, text: string, maxWidth: int)
    ensures WordsOf(Lines(WrapGroups(font, text, maxWidth))) == Split(text)
  {
    WrapGroupsGood(font, text, maxWidth);
    WordsOfLines(font, maxWidth, WrapGroups(font, text, maxWidth));
  }

  /** Each wrapped line is non-empty; a line of two or more words passed the
      width test; a line wider than `maxWidth` is a single word. */
  lemma WrapLineShape(font: Font, text: string, maxWidth: int, k: int)
    requires 0 <= k < |WrapGroups(font, text, maxWidth)|
    ensures var line := Lines(WrapGroups(font, text, maxWidth))[k];
      line != [] &&
      (|Split(line)| >= 2 ==> Fits(font, maxWidth, line)) &&
      (!Fits(font, maxWidth, line) ==> IsWord(line) && Split(line) == [line])
  {
    var g := WrapGroups(font, text, maxWidth)[k];
    WrapGroupsGood(font, text, maxWidth);
    assert GoodGroup(font, maxWidth, g);
    SplitJoin(g);
    var line := Join(" ", g);
    assert Lines(WrapGroups(font, text, maxWidth))[k] == line;
    if |g| == 1 {
      assert line == g[0];
    }
  }

  /** Empty or all-whitespace text wraps to no lines, and any other text to
      at least one. */
  lemma WrapBlank(font: Font, text: string, maxWidth: int)
    ensures Lines(WrapGroups(font, text, maxWidth)) == [] <==>
      forall i :: 0 <= i < |text| ==> IsSpace(text[i])
  {
    WrapGroupsGood(font, text, maxWidth);
    SplitEmpty(text);
  }

  // ---------------------------------------------------------------------
  // Refresh and status

  /** A refresh request names the colour panel, the black-and-white panel
      or both; any other name requests neither. */
  predicate ColorRequested(displayType: string) {
    displayType == "color" || displayType == "both"
  }

  predicate BwRequested(displayType: string) {
    displayType == "bw" || displayType == "both"
  }

  /** The exception a panel update raises for a fault: the fault's text
      behind the panel's prefix. */
  function Raised(panel: string, fault: Option<string>): Option<string> {
    match fault
    case None => None
    case Some(e) => Some(panel + " display update failed: " + e)
  }

  /** The message `refresh_display` records for one panel. */
  function RefreshMessage(panel: string, raised: Option<string>): string {
    match raised
    case None => panel + " display refreshed successfully"
    case Some(e) => panel + " display refresh failed: " + e
  }

  /** The status report: panel states and the last-refresh stamps. */
  datatype Status = Status(color: string, bw: string, lastColorRefresh: string, lastBwRefresh: string)

  /** `_get_last_refresh_time`: the stamp file's content with surrounding
      whitespace removed, or "Never" when there is no readable file. */
  function LastRefreshTime(stampFile: Option<string>): (r: string)
    ensures stampFile.None? ==> r == "Never"
    ensures stampFile.Some? ==> Trimmed(r) && |r| <= |stampFile.value|
    ensures stampFile.Some? ==> exists i :: InsideSpaces(stampFile.value, i, r)
    ensures stampFile.Some? && Trimmed(stampFile.value) ==> r == stampFile.value
  {
    match stampFile
    case None => "Never"
    case Some(content) => StripInside(content); Strip(content)
  }

  class Display {
    /** Whether the colour e-paper driver was found (`color_epd` is set). */
    var colorPanel: bool
    /** Contents of the two last-refresh stamp files, if readable. */
    var colorStamp: Option<string>
    var bwStamp: Option<string>

    constructor(panelFound: bool, colorFile: Option<string>, bwFile: Option<string>)
      ensures colorPanel == panelFound && colorStamp == colorFile && bwStamp == bwFile
    {
      colorPanel := panelFound;
      colorStamp := colorFile;
      bwStamp := bwFile;
    }

    /** `update_color_display`: `fault` is the error rendering or sending
        the image raises, if any.  On success the stamp is rewritten with
        `now`; a fault is re-raised with a prefix and the stamp is kept. */
    method UpdateColorDisplay(fault: Option<string>, now: string) returns (raised: Option<string>)
      modifies this
      ensures raised == Raised("Color", fault)
      ensures colorStamp == (if fault.None? then Some(now) else old(colorStamp))
      ensures bwStamp == old(bwStamp) && colorPanel == old(colorPanel)
    {
      raised := Raised("Color", fault);
      if fault.None? {
        colorStamp := Some(now);
      }
    }

    /** `update_bw_display`, the black-and-white counterpart. */
    method UpdateBwDisplay(fault: Option<string>, now: string) returns (raised: Option<string>)
      modifies this
      ensures raised == Raised("B&W", fault)
      ensures bwStamp == (if fault.None? then Some(now) else old(bwStamp))
      ensures colorStamp == old(colorStamp) && colorPanel == old(colorPanel)
    {
      raised := Raised("B&W", fault);
      if fault.None? {
        bwStamp := Some(now);
      }
    }

    /** `refresh_display`: update the requested panels, colour first, and
        collect one message per requested panel.  The call succeeds exactly
        when no requested update raised; a panel that was not requested is
        not touched. */
    method RefreshDisplay(displayType: string, colorFault: Option<string>, bwFault: Option<string>,
                          now: string) returns (success: bool, messages: seq<string>)
      modifies this
      ensures success <==> !(ColorRequested(displayType) && colorFault.Some?) &&
                           !(BwRequested(displayType) && bwFault.Some?)
      ensures |messages| == (if ColorRequested(displayType) then 1 else 0) +
                            (if BwRequested(displayType) then 1 else 0)
      ensures ColorRequested(displayType) ==>
        messages[0] == RefreshMessage("Color", Raised("Color", colorFault))
      ensures BwRequested(displayType) ==>
        messages[|messages| - 1] == RefreshMessage("B&W", Raised("B&W", bwFault))
      ensures colorStamp == (if ColorRequested(displayType) && colorFault.None? then Some(now) else old(colorStamp))
      ensures bwStamp == (if BwRequested(displayType) && bwFault.None? then Some(now) else old(bwStamp))
      ensures colorPanel == old(colorPanel)
    {
      success := true;
      messages := [];
      if ColorRequested(displayType) {
        var raised := UpdateColorDisplay(colorFault, now);
        if raised.Some? {
          success := false;
        }
        messages := messages + [RefreshMessage("Color", raised)];
      }
      if BwRequested(displayType) {
        var raised := UpdateBwDisplay(bwFault, now);
        if raised.Some? {
          success := false;
        }
        messages := messages + [RefreshMessage("B&W", raised)];
      }
    }

    /** `get_status`: the colour panel is active exactly when its driver was
        found, the black-and-white panel is always reported active, and the
        stamps are read back through `LastRefreshTime`. */
    function GetStatus(): (s: Status)
      reads this
      ensures s.color == (if colorPanel then "active" else "unavailable")
      ensures s.bw == "active"
      ensures s.lastColorRefresh == LastRefreshTime(colorStamp)
      ensures s.lastBwRefresh == LastRefreshTime(bwStamp)
    {
      Status(if colorPanel then "active" else "unavailable", "active",
             LastRefreshTime(colorStamp), LastRefreshTime(bwStamp))
    }
  }
}
