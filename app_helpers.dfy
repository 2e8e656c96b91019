/** The pure helpers of the app: the `m:ss` clock text, the home-screen
    header chosen by the day's progress, the Mondrian art pieces behind the
    memory cards and the parser that reads a piece's inline style back into
    properties, and the per-game detail table. */
module AppHelpers {
  import opened Options
  import opened Text

  // ---------------------------------------------------------------------
  // formatTime

  /** `formatTime(seconds)`: whole minutes, a colon, and the remaining
      seconds as two digits. */
  function FormatTime(seconds: nat): (r: string)
    ensures 4 <= |r| && r[|r| - 3] == ':'
  {
    PadStartTwoDigits(seconds % 60);
    Clock(seconds / 60, seconds % 60)
  }

  /** The clock text of `m` minutes and `s` seconds. */
  function Clock(m: nat, s: nat): string {
    DecimalString(m) + ":" + PadStart(DecimalString(s), 2, '0')
  }

  /** The fields of a clock text: a canonical minute field, a colon and
      the seconds as exactly two digits. */
  lemma ClockShape(m: nat, s: nat)
    requires s < 60
    ensures var r := Clock(m, s);
      && 4 <= |r| && r[|r| - 3] == ':'
      && IsCanonical(r[..|r| - 3]) && ParseDecimal(r[..|r| - 3]) == m
      && IsDigits(r[|r| - 2..]) && ParseDecimal(r[|r| - 2..]) == s
  {
    var minutes := DecimalString(m);
    var padded := [DigitChar(s / 10), DigitChar(s % 10)];
    PadStartTwoDigits(s);
    TwoDigitValue(padded[0], padded[1]);
    var r := minutes + ":" + padded;
    assert r[..|r| - 3] == minutes && r[|r| - 2..] == padded;
  }

  /** The minute field of `FormatTime(seconds)` is the whole minutes,
      without a leading zero, and its last two digits are the remaining
      seconds. */
  lemma FormatTimeShape(seconds: nat)
    ensures var r := FormatTime(seconds);
      && IsCanonical(r[..|r| - 3]) && ParseDecimal(r[..|r| - 3]) == seconds / 60
      && IsDigits(r[|r| - 2..]) && ParseDecimal(r[|r| - 2..]) == seconds % 60
  {
    ClockShape(seconds / 60, seconds % 60);
  }

  /** Reads an `m:ss` clock text back into seconds: digits without a
      leading zero, a colon, and exactly two digits below 60. */
  function ParseTime(s: string): Option<nat> {
    match IndexOf(s, ':')
    case None => None
    case Some(k) =>
      var minutes := s[..k];
      var secs := s[k + 1..];
      if IsCanonical(minutes) && |secs| == 2 && IsDigits(secs) && ParseDecimal(secs) < 60
      then Some(ParseDecimal(minutes) * 60 + ParseDecimal(secs))
      else None
  }

  /** A canonical minute field, a colon and two digits below 60 read back
      as their number of seconds. */
  lemma ParseClockText(r: string, minutes: string, secs: string)
    requires IsCanonical(minutes)
    requires |secs| == 2 && IsDigits(secs) && ParseDecimal(secs) < 60
    requires r == minutes + ":" + secs
    ensures ParseTime(r) == Some(ParseDecimal(minutes) * 60 + ParseDecimal(secs))
  {
    assert forall i :: 0 <= i < |minutes| ==> IsDigit(minutes[i]);
    IndexOfAfter(minutes, ':', secs);
    assert r[..|minutes|] == minutes && r[|minutes| + 1..] == secs;
  }

  /** A clock text reads back as its duration. */
  lemma ClockRoundTrip(m: nat, s: nat)
    requires s < 60
    ensures ParseTime(Clock(m, s)) == Some(m * 60 + s)
  {
    var padded := [DigitChar(s / 10), DigitChar(s % 10)];
    PadStartTwoDigits(s);
    TwoDigitValue(padded[0], padded[1]);
    ParseClockText(Clock(m, s), DecimalString(m), padded);
  }

  /** `FormatTime` loses nothing: its text reads back as the same number
      of seconds. */
  lemma FormatTimeRoundTrip(seconds: nat)
    ensures ParseTime(FormatTime(seconds)) == Some(seconds)
  {
    ClockRoundTrip(seconds / 60, seconds % 60);
  }

  /** A text with a canonical minute field, a colon and two digits is the
      clock text of the minutes and seconds it spells. */
  lemma ClockCanonical(s: string, k: nat)
    requires k < |s| && s[k] == ':'
    requires IsCanonical(s[..k])
    requires |s[k + 1..]| == 2 && IsDigits(s[k + 1..])
    ensures Clock(ParseDecimal(s[..k]), ParseDecimal(s[k + 1..])) == s
  {
    var minutes, secs := s[..k], s[k + 1..];
    assert s == minutes + ":" + secs by {
      assert s == s[..k] + s[k..] && s[k..] == [s[k]] + s[k + 1..];
    }
    DecimalUnique(minutes, ParseDecimal(minutes));
    var a, b := secs[0], secs[1];
    assert secs == [a, b];
    TwoDigitValue(a, b);
    DigitCharValue(a);
    DigitCharValue(b);
    var v := ParseDecimal(secs);
    assert v / 10 == DigitValue(a) && v % 10 == DigitValue(b);
    PadStartTwoDigits(v);
    assert PadStart(DecimalString(v), 2, '0') == secs;
  }

  /** Every text `ParseTime` accepts is the clock text of the seconds it
      reads. */
  lemma ParseTimeSound(s: string)
    requires ParseTime(s).Some?
    ensures FormatTime(ParseTime(s).value) == s
  {
    var k := IndexOf(s, ':').value;
    var m, sec := ParseDecimal(s[..k]), ParseDecimal(s[k + 1..]);
    ClockCanonical(s, k);
    var n := ParseTime(s).value;
    assert n == m * 60 + sec;
    MinutesAndSeconds(n, m, sec);
  }

  /** Whole minutes and the remaining seconds are the quotient and the
      remainder by sixty. */
  lemma MinutesAndSeconds(n: nat, m: nat, s: nat)
    requires s < 60 && n == m * 60 + s
    ensures n / 60 == m && n % 60 == s
  {
  }

  /** Different durations are shown differently. */
  lemma FormatTimeInjective(a: nat, b: nat)
    requires FormatTime(a) == FormatTime(b)
    ensures a == b
  {
    FormatTimeRoundTrip(a);
    FormatTimeRoundTrip(b);
  }

  /** A text the reader accepts as `n` seconds is `FormatTime(n)`. */
  lemma ReadsAs(text: string, n: nat)
    requires ParseTime(text) == Some(n)
    ensures FormatTime(n) == text
  {
    ParseTimeSound(text);
  }

  /** No time at all is shown as `0:00`. */
  lemma FormatTimeZero()
    ensures FormatTime(0) == "0:00"
  {
    assert ParseDecimal("0") == 0 && ParseDecimal("00") == 0;
    ParseClockText("0:00", "0", "00");
    ReadsAs("0:00", 0);
  }

  /** A minute and five seconds are shown as `1:05`. */
  lemma FormatTimeOneMinute()
    ensures FormatTime(65) == "1:05"
  {
    assert ParseDecimal("1") == 1 && ParseDecimal("05") == 5;
    ParseClockText("1:05", "1", "05");
    ReadsAs("1:05", 65);
  }

  /** The completion time of 135 seconds is shown as `2:15`. */
  lemma FormatTimeCompletion()
    ensures FormatTime(135) == "2:15"
  {
    assert ParseDecimal("2") == 2 && ParseDecimal("15") == 15;
    ParseClockText("2:15", "2", "15");
    ReadsAs("2:15", 135);
  }

  /** The seven-second lead is shown as `0:07`. */
  lemma FormatTimeLead()
    ensures FormatTime(7) == "0:07"
  {
    assert ParseDecimal("0") == 0 && ParseDecimal("07") == 7;
    ParseClockText("0:07", "0", "07");
    ReadsAs("0:07", 7);
  }

  /** An hour is shown as `60:00`: the minutes are not carried into hours. */
  lemma FormatTimeHour()
    ensures FormatTime(3600) == "60:00"
  {
    assert ParseDecimal("60") == 60 && ParseDecimal("00") == 0;
    ParseClockText("60:00", "60", "00");
    ReadsAs("60:00", 3600);
  }

  // ---------------------------------------------------------------------
  // getHomeHeaderMessage

  /** Which of the two daily missions are done. */
  datatype DailyProgress = DailyProgress(drawing: bool, game: bool)

  /** The four home headers (their Korean title and subtitle are not part of
      this model): start the missions, drawing done, game done, all done. */
  datatype HomeHeader = StartMission | DrawingDone | GameDone | AllDone

  /** The progress a header announces. */
  function Announced(h: HomeHeader): DailyProgress {
    match h
    case StartMission => DailyProgress(false, false)
    case DrawingDone => DailyProgress(true, false)
    case GameDone => DailyProgress(false, true)
    case AllDone => DailyProgress(true, true)
  }

  /** `getHomeHeaderMessage`: the header announces exactly the progress it
      is given, so each of the four combinations has its own header. */
  function HomeHeaderMessage(p: DailyProgress): (r: HomeHeader)
    ensures Announced(r) == p
  {
    if !p.drawing && !p.game then StartMission
    else if p.drawing && !p.game then DrawingDone
    else if !p.drawing && p.game then GameDone
    else AllDone
  }

  lemma HomeHeaderMessageBijective(h: HomeHeader)
    ensures HomeHeaderMessage(Announced(h)) == h
  {
  }

  // ---------------------------------------------------------------------
  // Inline styles

  /** The five properties the parser knows. */
  datatype StyleKey = Background | BorderRight | BorderLeft | BorderTop | BorderBottom

  /** The CSS name of a property; the parser looks for it followed by ':'. */
  function PropertyName(k: StyleKey): string {
    match k
    case Background => "background"
    case BorderRight => "border-right"
    case BorderLeft => "border-left"
    case BorderTop => "border-top"
    case BorderBottom => "border-bottom"
  }

  function Label(k: StyleKey): string {
    PropertyName(k) + ":"
  }

  /** One `name: value;` declaration of an inline style. */
  datatype Declaration = Declaration(key: StyleKey, value: string)

  function DeclarationText(d: Declaration): string {
    PropertyName(d.key) + ": " + d.value + ";"
  }

  /** Declarations written one after another, separated by single spaces. */
  function StyleText(ds: seq<Declaration>): string {
    if |ds| == 0 then ""
    else if |ds| == 1 then DeclarationText(ds[0])
    else DeclarationText(ds[0]) + " " + StyleText(ds[1..])
  }

  /** A value that reads back as itself: no ';' or ':' and no white space
      at either end. */
  predicate PlainValue(v: string) {
    ';' !in v && ':' !in v && (v == [] || (!IsSpace(v[0]) && !IsSpace(v[|v| - 1])))
  }

  /** The value of the first declaration of `k`. */
  function FirstValue(ds: seq<Declaration>, k: StyleKey): (r: Option<string>)
    ensures r.Some? <==> exists i :: 0 <= i < |ds| && ds[i].key == k
  {
    if ds == [] then None
    else if ds[0].key == k then Some(ds[0].value)
    else
      var r := FirstValue(ds[1..], k);
      assert forall i :: 1 <= i < |ds| ==> ds[i] == ds[1..][i - 1];
      r
  }

  /** The value of the first declaration of `k` is the one `FirstValue`
      returns. */
  lemma {:induction false} FirstValueAt(ds: seq<Declaration>, j: nat, k: StyleKey)
    requires j < |ds| && ds[j].key == k
    requires forall i :: 0 <= i < j ==> ds[i].key != k
    ensures FirstValue(ds, k) == Some(ds[j].value)
  {
    if j > 0 {
      FirstValueAt(ds[1..], j - 1, k);
    }
  }

  // ---------------------------------------------------------------------
  // getMondrianPieceStyle

  const Solid8 := "8px solid #000"
  const Solid4 := "4px solid #000"
  const Gradient := "linear-gradient(to bottom, " + "#dc143c 0%, #dc143c 60%, " + "#f5f5f5 60%, #f5f5f5 100%)"

  /** The eight pieces of the painting, as declarations. */
  const PieceDeclarations: seq<seq<Declaration>> :=
    [Decls0, Decls1, Decls2, Decls3, Decls4, Decls5, Decls6, Decls7]

  const Decls0 := [Declaration(Background, "#dc143c"), Declaration(BorderRight, Solid8), Declaration(BorderBottom, Solid8)]
  const Decls1 := [Declaration(Background, "#f5f5f5"), Declaration(BorderBottom, Solid8), Declaration(BorderLeft, Solid4)]
  const Decls2 := [Declaration(Background, "#0066cc"), Declaration(BorderRight, Solid8), Declaration(BorderBottom, Solid4),
    Declaration(BorderTop, Solid4)]
  const Decls3 := [Declaration(Background, "#f5f5f5"), Declaration(BorderLeft, Solid4), Declaration(BorderBottom, Solid4),
    Declaration(BorderTop, Solid4)]
  const Decls4 := [Declaration(Background, "#ffd700"), Declaration(BorderRight, Solid8), Declaration(BorderTop, Solid4),
    Declaration(BorderBottom, Solid8)]
  const Decls5 := [Declaration(Background, "#f5f5f5"), Declaration(BorderLeft, Solid4), Declaration(BorderTop, Solid4),
    Declaration(BorderBottom, Solid8)]
  const Decls6 := [Declaration(Background, "#f5f5f5"), Declaration(BorderRight, Solid8), Declaration(BorderTop, Solid4)]
  const Decls7 := [Declaration(Background, Gradient), Declaration(BorderLeft, Solid4), Declaration(BorderTop, Solid4)]

  /** The eight inline styles, character for character. */
  const ArtPieces: seq<string> := [Piece0, Piece1, Piece2, Piece3, Piece4, Piece5, Piece6, Piece7]

  const Piece0 := "background: #dc143c; " + "border-right: 8px solid #000; " + "border-bottom: 8px solid #000;"
  const Piece1 := "background: #f5f5f5; " + "border-bottom: 8px solid #000; " + "border-left: 4px solid #000;"
  const Piece2 := "background: #0066cc; " + "border-right: 8px solid #000; " + "border-bottom: 4px solid #000; "
    + "border-top: 4px solid #000;"
  const Piece3 := "background: #f5f5f5; " + "border-left: 4px solid #000; " + "border-bottom: 4px solid #000; "
    + "border-top: 4px solid #000;"
  const Piece4 := "background: #ffd700; " + "border-right: 8px solid #000; " + "border-top: 4px solid #000; "
    + "border-bottom: 8px solid #000;"
  const Piece5 := "background: #f5f5f5; " + "border-left: 4px solid #000; " + "border-top: 4px solid #000; "
    + "border-bottom: 8px solid #000;"
  const Piece6 := "background: #f5f5f5; " + "border-right: 8px solid #000; " + "border-top: 4px solid #000;"
  const Piece7 := "background: " + Gradient + "; " + "border-left: 4px solid #000; " + "border-top: 4px solid #000;"

  /** `getMondrianPieceStyle(pieceIndex)`: the piece at that index, or the
      first piece when the index is outside the table (every piece is a
      non-empty string, so `||` falls back only then). */
  function MondrianPieceStyle(pieceIndex: int): (r: string)
    ensures 0 <= pieceIndex < |ArtPieces| ==> r == ArtPieces[pieceIndex]
    ensures !(0 <= pieceIndex < |ArtPieces|) ==> r == ArtPieces[0]
    ensures r != []
  {
    if 0 <= pieceIndex < |ArtPieces| && ArtPieces[pieceIndex] != "" then ArtPieces[pieceIndex]
    else ArtPieces[0]
  }

  // ---------------------------------------------------------------------
  // parseMondrianStyle

  /** What `\s*([^;]+);` makes of the text right after a needle, with the
      capture trimmed: it matches when the first ';' is not the very next
      character, and the capture is everything before that ';'. */
  function ValueAt(rest: string): (r: Option<string>)
    ensures r.Some? ==> ';' in rest && ';' !in r.value
  {
    match IndexOf(rest, ';')
    case Some(k) =>
      if k >= 1 then
        var v := Trim(rest[..k]);
        assert forall i :: 0 <= i < |v| ==> v[i] in rest[..k] by {
          assert v == TrimStart(rest[..k])[..|v|];
        }
        Some(v)
      else None
    case None => None
  }

  /** `s.match(/<needle>\s*([^;]+);/)` with its capture trimmed: the value
      at the leftmost position where the needle is followed by a match. */
  function MatchLabel(s: string, needle: string): (r: Option<string>)
    ensures r.Some? ==> Contains(s, needle)
    decreases |s|
  {
    if |s| < |needle| || s == [] then None
    else if StartsWith(s, needle) && ValueAt(s[|needle|..]).Some? then ValueAt(s[|needle|..])
    else MatchLabel(s[1..], needle)
  }

  /** The value the parser finds for property `k` in `s`, if any. */
  function LabelValue(s: string, k: StyleKey): Option<string> {
    MatchLabel(s, Label(k))
  }

  /** Property `k` of `styles` is what the parser finds for it in `s`:
      present exactly when the label matches, holding the trimmed capture. */
  predicate Parsed(styles: map<StyleKey, string>, s: string, k: StyleKey) {
    (k in styles <==> LabelValue(s, k).Some?)
    && (k in styles ==> styles[k] == LabelValue(s, k).value)
  }

  /** One of the five blocks of `parseMondrianStyle`: when the label of
      `k` occurs and the pattern matches, `k` is set to the trimmed capture;
      every other property is left as it was. */
  method ParseProperty(styleString: string, styles: map<StyleKey, string>, k: StyleKey)
    returns (updated: map<StyleKey, string>)
    requires k !in styles
    ensures Parsed(updated, styleString, k)
    ensures forall j :: j != k && Parsed(styles, styleString, j) ==> Parsed(updated, styleString, j)
    ensures forall j :: j != k && j !in styles ==> j !in updated
  {
    updated := styles;
    if Contains(styleString, Label(k)) {
      var found := LabelValue(styleString, k);
      if found.Some? {
        updated := updated[k := found.value];
      }
    }
  }

  /** `parseMondrianStyle(styleString)`: a property is present exactly when
      its label matches, and then holds the trimmed capture; a property
      whose label does not occur is never present. */
  method ParseMondrianStyle(styleString: string) returns (styles: map<StyleKey, string>)
    ensures forall k :: Parsed(styles, styleString, k)
    ensures forall k :: !Contains(styleString, Label(k)) ==> k !in styles
  {
    styles := map[];
    styles := ParseProperty(styleString, styles, Background);
    styles := ParseProperty(styleString, styles, BorderRight);
    styles := ParseProperty(styleString, styles, BorderLeft);
    styles := ParseProperty(styleString, styles, BorderTop);
    styles := ParseProperty(styleString, styles, BorderBottom);
  }

  // ---------------------------------------------------------------------
  // Reading a written style back

  /** Property names contain no ':', ';' or space, and are at least ten
      characters long. */
  lemma PropertyNameChars(k: StyleKey)
    ensures 10 <= |PropertyName(k)|
    ensures forall j :: 0 <= j < |PropertyName(k)| ==>
      PropertyName(k)[j] != ':' && PropertyName(k)[j] != ';' && PropertyName(k)[j] != ' '
  {
  }

  /** No property name ends another one. */
  lemma PropertyNameNotSuffix(k: StyleKey, other: StyleKey, i: nat)
    requires 0 < i < |PropertyName(other)|
    ensures PropertyName(other)[i..] != PropertyName(k)
  {
    PropertyNameChars(k);
    if |PropertyName(other)| - i == |PropertyName(k)| {
      assert PropertyName(other)[i..][0] == PropertyName(other)[i] != PropertyName(k)[0];
    }
  }

  /** A text whose character at `x` differs from the pattern's does not
      start with the pattern. */
  lemma Mismatch(t: string, p: string, x: nat)
    requires x < |p| && x < |t| && t[x] != p[x]
    ensures !StartsWith(t, p)
  {
    if |p| <= |t| {
      assert t[..|p|][x] == t[x];
    }
  }

  /** The label of another property starts nowhere inside the name of a
      property followed by its colon. */
  lemma NoOtherLabelInName(key: StyleKey, k: StyleKey, tail: string, i: nat)
    requires key != k && i < |PropertyName(key)|
    ensures !StartsWith((PropertyName(key) + [':'] + tail)[i..], Label(k))
  {
    var n, N := PropertyName(key), PropertyName(k);
    if i + |N| < |n| {
      LabelEndsInsideName(key, k, tail, i);
    } else if i + |N| == |n| {
      LabelEndsAtColon(key, k, tail, i);
    } else {
      LabelSpansColon(key, k, tail, i);
    }
  }

  /** A label whose colon would fall inside the name does not match there. */
  lemma LabelEndsInsideName(key: StyleKey, k: StyleKey, tail: string, i: nat)
    requires i + |PropertyName(k)| < |PropertyName(key)|
    ensures !StartsWith((PropertyName(key) + [':'] + tail)[i..], Label(k))
  {
    var n, N, L := PropertyName(key), PropertyName(k), Label(k);
    var t := (n + [':'] + tail)[i..];
    PropertyNameChars(key);
    assert |L| == |N| + 1 && L[|N|] == ':';
    assert t[|N|] == n[i + |N|];
    Mismatch(t, L, |N|);
  }

  /** A label whose colon would fall on the colon of another name differs
      from it in its name part. */
  lemma LabelEndsAtColon(key: StyleKey, k: StyleKey, tail: string, i: nat)
    requires key != k && i + |PropertyName(k)| == |PropertyName(key)|
    ensures !StartsWith((PropertyName(key) + [':'] + tail)[i..], Label(k))
  {
    var n, N := PropertyName(key), PropertyName(k);
    if i == 0 {
      PropertyNameInjective(key, k);
    } else {
      PropertyNameNotSuffix(k, key, i);
    }
    NameTailDiffers(n, tail, i, N);
  }

  /** Text that starts with a tail of `n` other than `N` does not start
      with the label `N:`. */
  lemma NameTailDiffers(n: string, tail: string, i: nat, N: string)
    requires i + |N| == |n| && n[i..] != N
    ensures !StartsWith((n + [':'] + tail)[i..], N + ":")
  {
    var s := n + [':'] + tail;
    var t, L := s[i..], N + ":";
    assert t[..|N|] == n[i..] by {
      assert forall x :: 0 <= x < |N| ==> t[..|N|][x] == s[i + x] == n[i..][x];
    }
    assert L[..|N|] == N;
    if |L| <= |t| {
      assert t[..|L|][..|N|] == t[..|N|] != L[..|N|];
    }
  }

  /** Different properties have different names. */
  lemma PropertyNameInjective(a: StyleKey, b: StyleKey)
    requires a != b
    ensures PropertyName(a) != PropertyName(b)
  {
    PropertyNameChars(a);
    PropertyNameChars(b);
    assert PropertyName(a)[7] != PropertyName(b)[7];
  }

  /** A label that would run past the colon of a name meets that colon
      inside its own name part. */
  lemma LabelSpansColon(key: StyleKey, k: StyleKey, tail: string, i: nat)
    requires i < |PropertyName(key)| < i + |PropertyName(k)|
    ensures !StartsWith((PropertyName(key) + [':'] + tail)[i..], Label(k))
  {
    var n, N, L := PropertyName(key), PropertyName(k), Label(k);
    var t := (n + [':'] + tail)[i..];
    PropertyNameChars(k);
    assert L[..|N|] == N;
    assert t[|n| - i] == ':' && L[|n| - i] == N[|n| - i];
    Mismatch(t, L, |n| - i);
  }

  /** The label of a property starts nowhere from the colon of a
      declaration to the separating space after it. */
  lemma NoLabelAfterName(v: string, k: StyleKey, sep: string, rest: string, i: nat)
    requires ':' !in v && ';' !in v
    requires sep == "" || sep == " "
    requires i < |": " + v + ";" + sep|
    ensures !StartsWith((": " + v + ";" + sep + rest)[i..], Label(k))
  {
    var N, L := PropertyName(k), Label(k);
    var w := ": " + v + ";" + sep + rest;
    var t := w[i..];
    var semi := 2 + |v|;
    PropertyNameChars(k);
    assert |L| == |N| + 1 && L[|N|] == ':';
    assert w[semi] == ';';
    if i < 2 {
      assert t[0] == ':' || t[0] == ' ';
      Mismatch(t, L, 0);
    } else if i < semi {
      if i + |N| >= semi {
        assert t[semi - i] == ';';
        Mismatch(t, L, semi - i);
      } else {
        assert t[|N|] == v[i + |N| - 2];
        Mismatch(t, L, |N|);
      }
    } else {
      assert t[0] == ';' || t[0] == ' ';
      Mismatch(t, L, 0);
    }
  }

  /** No label of another property starts anywhere inside a declaration or
      the separating space after it, whatever text follows. */
  lemma NoOtherLabel(d: Declaration, k: StyleKey, sep: string, rest: string)
    requires d.key != k && PlainValue(d.value)
    requires sep == "" || sep == " "
    ensures forall i :: 0 <= i < |DeclarationText(d) + sep| ==>
      !StartsWith((DeclarationText(d) + sep + rest)[i..], Label(k))
  {
    var n := PropertyName(d.key);
    var w := ": " + d.value + ";" + sep + rest;
    var s := DeclarationText(d) + sep + rest;
    assert s == n + w;
    assert s == n + [':'] + w[1..];
    forall i | 0 <= i < |DeclarationText(d) + sep|
      ensures !StartsWith(s[i..], Label(k))
    {
      if i < |n| {
        NoOtherLabelInName(d.key, k, w[1..], i);
      } else {
        NoLabelAfterName(d.value, k, sep, rest, i - |n|);
        assert s[i..] == w[i - |n|..];
      }
    }
  }

  /** Text in which the needle starts nowhere inside `front` is searched as
      if `front` were not there. */
  lemma {:induction false} SkipPrefix(front: string, back: string, needle: string)
    requires needle != []
    requires forall i :: 0 <= i < |front| ==> !StartsWith((front + back)[i..], needle)
    ensures MatchLabel(front + back, needle) == MatchLabel(back, needle)
    decreases |front|
  {
    if front != [] {
      assert (front + back)[0..] == front + back;
      if |front + back| >= |needle| {
        assert (front + back)[1..] == front[1..] + back;
        forall i | 0 <= i < |front[1..]|
          ensures !StartsWith((front[1..] + back)[i..], needle)
        {
          assert (front[1..] + back)[i..] == (front + back)[i + 1..];
        }
        SkipPrefix(front[1..], back, needle);
      }
    }
  }

  /** After a label, a space, a plain value and a ';' match the pattern
      and capture the value. */
  lemma ValueAtPlain(v: string, rest: string)
    requires PlainValue(v)
    ensures ValueAt(" " + v + ";" + rest) == Some(v)
  {
    var head := " " + v;
    var after := head + [';'] + rest;
    assert after == " " + v + ";" + rest;
    NoSemicolonBeforeValueEnd(v);
    IndexOfAfter(head, ';', rest);
    assert after[..|head|] == head;
    TrimSpacedPlain(v);
  }

  /** A space and a plain value hold no ';'. */
  lemma NoSemicolonBeforeValueEnd(v: string)
    requires PlainValue(v)
    ensures forall i :: 0 <= i < |" " + v| ==> (" " + v)[i] != ';'
  {
    var head := " " + v;
    forall i | 0 <= i < |head|
      ensures head[i] != ';'
    {
      if i > 0 {
        assert head[i] == v[i - 1];
      }
    }
  }

  /** Trimming a space and a plain value leaves the value. */
  lemma TrimSpacedPlain(v: string)
    requires PlainValue(v)
    ensures Trim(" " + v) == v
  {
    var head := " " + v;
    assert head[1..] == v;
    assert IsSpace(head[0]);
    assert TrimStart(head) == TrimStart(head[1..]);
    assert TrimStart(v) == v && TrimEnd(v) == v;
  }

  /** A match right at the start of the text is the leftmost one. */
  lemma MatchAtStart(needle: string, after: string)
    requires needle != [] && ValueAt(after).Some?
    ensures MatchLabel(needle + after, needle) == ValueAt(after)
  {
    var s := needle + after;
    assert s[..|needle|] == needle && s[|needle|..] == after;
  }

  /** A declaration is its label, a space, its value and a ';'. */
  lemma DeclarationSplit(d: Declaration, rest: string)
    ensures DeclarationText(d) + rest == Label(d.key) + (" " + d.value + ";" + rest)
  {
    var n, v := PropertyName(d.key), d.value;
    calc {
      DeclarationText(d) + rest;
      n + ": " + v + ";" + rest;
      { assert ": " == [':'] + " "; }
      n + [':'] + " " + v + ";" + rest;
    }
  }

  /** The label of a declaration, at its start, yields its value. */
  lemma LabelAtDeclaration(d: Declaration, sep: string, rest: string)
    requires PlainValue(d.value)
    ensures LabelValue(DeclarationText(d) + sep + rest, d.key) == Some(d.value)
  {
    var after := " " + d.value + ";" + (sep + rest);
    var s := Label(d.key) + after;
    assert MatchLabel(s, Label(d.key)) == Some(d.value) by {
      ValueAtPlain(d.value, sep + rest);
      MatchAtStart(Label(d.key), after);
    }
    assert DeclarationText(d) + sep + rest == s by {
      DeclarationSplit(d, sep + rest);
      assert DeclarationText(d) + sep + rest == DeclarationText(d) + (sep + rest);
    }
  }

  /** The search for another property's label passes over a declaration
      and its separating space. */
  lemma SkipDeclaration(d: Declaration, k: StyleKey, sep: string, rest: string)
    requires d.key != k && PlainValue(d.value)
    requires sep == "" || sep == " "
    ensures LabelValue(DeclarationText(d) + sep + rest, k) == LabelValue(rest, k)
  {
    NoOtherLabel(d, k, sep, rest);
    SkipPrefix(DeclarationText(d) + sep, rest, Label(k));
  }

  /** A style text is its first declaration, then (when there are more)
      a space and the rest. */
  lemma StyleTextSplit(ds: seq<Declaration>)
    requires ds != []
    ensures StyleText(ds) == DeclarationText(ds[0]) + (if |ds| == 1 then "" else " ")
      + (if |ds| == 1 then "" else StyleText(ds[1..]))
  {
    if |ds| == 1 {
      assert DeclarationText(ds[0]) + "" + "" == DeclarationText(ds[0]);
    }
  }

  /** A style written from declarations with plain values reads back, for
      every property, as the value of its first declaration, and as absent
      when it has none. */
  lemma {:induction false} StyleTextRoundTrip(ds: seq<Declaration>, k: StyleKey)
    requires forall i :: 0 <= i < |ds| ==> PlainValue(ds[i].value)
    ensures LabelValue(StyleText(ds), k) == FirstValue(ds, k)
    decreases |ds|
  {
    if ds != [] {
      var d := ds[0];
      var sep := if |ds| == 1 then "" else " ";
      var rest := if |ds| == 1 then "" else StyleText(ds[1..]);
      StyleTextSplit(ds);
      if d.key == k {
        LabelAtDeclaration(d, sep, rest);
      } else {
        SkipDeclaration(d, k, sep, rest);
        if |ds| > 1 {
          StyleTextRoundTrip(ds[1..], k);
        }
      }
    }
  }

  // ---------------------------------------------------------------------
  // The art pieces read back

  lemma StyleTextOfThree(a: Declaration, b: Declaration, c: Declaration)
    ensures StyleText([a, b, c]) == DeclarationText(a) + " " + DeclarationText(b) + " " + DeclarationText(c)
  {
    assert [a, b, c][1..] == [b, c] && [b, c][1..] == [c];
    assert StyleText([b, c]) == DeclarationText(b) + " " + DeclarationText(c);
    var x, y, z := DeclarationText(a), DeclarationText(b), DeclarationText(c);
    assert x + " " + (y + " " + z) == x + " " + y + " " + z;
  }

  lemma Regroup(p: string, q: string, r: string)
    ensures p + (q + r) == p + q + r
  {
  }

  lemma StyleTextOfFour(a: Declaration, b: Declaration, c: Declaration, d: Declaration)
    ensures StyleText([a, b, c, d]) == DeclarationText(a) + " " + DeclarationText(b) + " "
      + DeclarationText(c) + " " + DeclarationText(d)
  {
    assert [a, b, c, d][1..] == [b, c, d];
    StyleTextOfThree(b, c, d);
    var w, x, y, z := DeclarationText(a), DeclarationText(b), DeclarationText(c), DeclarationText(d);
    var p := w + " ";
    assert StyleText([a, b, c, d]) == p + (x + " " + y + " " + z);
    Regroup(p, x + " " + y + " ", z);
    Regroup(p, x + " " + y, " ");
    Regroup(p, x + " ", y);
    Regroup(p, x, " ");
  }

  // Each declaration of the table, written out; one lemma per text keeps
  // every literal comparison small.

  lemma ChunkBackgroundCrimsonSpaced()
    ensures DeclarationText(Declaration(Background, "#dc143c")) + " " == "background: #dc143c; "
  {
  }
  lemma ChunkBorderRightSolid8Spaced()
    ensures DeclarationText(Declaration(BorderRight, Solid8)) + " " == "border-right: 8px solid #000; "
  {
  }
  lemma ChunkBorderBottomSolid8()
    ensures DeclarationText(Declaration(BorderBottom, Solid8)) == "border-bottom: 8px solid #000;"
  {
  }
  lemma ChunkBackgroundWhiteSpaced()
    ensures DeclarationText(Declaration(Background, "#f5f5f5")) + " " == "background: #f5f5f5; "
  {
  }
  lemma ChunkBorderBottomSolid8Spaced()
    ensures DeclarationText(Declaration(BorderBottom, Solid8)) + " " == "border-bottom: 8px solid #000; "
  {
  }
  lemma ChunkBorderLeftSolid4()
    ensures DeclarationText(Declaration(BorderLeft, Solid4)) == "border-left: 4px solid #000;"
  {
  }
  lemma ChunkBackgroundBlueSpaced()
    ensures DeclarationText(Declaration(Background, "#0066cc")) + " " == "background: #0066cc; "
  {
  }
  lemma ChunkBorderBottomSolid4Spaced()
    ensures DeclarationText(Declaration(BorderBottom, Solid4)) + " " == "border-bottom: 4px solid #000; "
  {
  }
  lemma ChunkBorderTopSolid4()
    ensures DeclarationText(Declaration(BorderTop, Solid4)) == "border-top: 4px solid #000;"
  {
  }
  lemma ChunkBorderLeftSolid4Spaced()
    ensures DeclarationText(Declaration(BorderLeft, Solid4)) + " " == "border-left: 4px solid #000; "
  {
  }
  lemma ChunkBackgroundGoldSpaced()
    ensures DeclarationText(Declaration(Background, "#ffd700")) + " " == "background: #ffd700; "
  {
  }
  lemma ChunkBorderTopSolid4Spaced()
    ensures DeclarationText(Declaration(BorderTop, Solid4)) + " " == "border-top: 4px solid #000; "
  {
  }
  lemma ChunkBackgroundGradientSpaced()
    ensures DeclarationText(Declaration(Background, Gradient)) + " " == "background: " + Gradient + "; "
  {
    var g := Gradient;
    assert DeclarationText(Declaration(Background, g)) + " " == ("background" + ": ") + g + (";" + " ");
    assert "background" + ": " == "background: " && ";" + " " == "; ";
  }

  lemma WrittenThree(x: Declaration, y: Declaration, z: Declaration, a: string, b: string, c: string)
    requires DeclarationText(x) + " " == a && DeclarationText(y) + " " == b && DeclarationText(z) == c
    ensures StyleText([x, y, z]) == a + b + c
  {
    StyleTextOfThree(x, y, z);
  }

  lemma WrittenFour(w: Declaration, x: Declaration, y: Declaration, z: Declaration,
                    a: string, b: string, c: string, d: string)
    requires DeclarationText(w) + " " == a && DeclarationText(x) + " " == b
    requires DeclarationText(y) + " " == c && DeclarationText(z) == d
    ensures StyleText([w, x, y, z]) == a + b + c + d
  {
    StyleTextOfFour(w, x, y, z);
  }

  /** Each art piece is the text of its declarations. */
  lemma ArtPiece0Written()
    ensures Piece0 == StyleText(Decls0)
  {
    ChunkBackgroundCrimsonSpaced(); ChunkBorderRightSolid8Spaced(); ChunkBorderBottomSolid8();
    WrittenThree(Declaration(Background, "#dc143c"), Declaration(BorderRight, Solid8), Declaration(BorderBottom, Solid8),
      "background: #dc143c; ", "border-right: 8px solid #000; ", "border-bottom: 8px solid #000;");
  }

  lemma ArtPiece1Written()
    ensures Piece1 == StyleText(Decls1)
  {
    ChunkBackgroundWhiteSpaced(); ChunkBorderBottomSolid8Spaced(); ChunkBorderLeftSolid4();
    WrittenThree(Declaration(Background, "#f5f5f5"), Declaration(BorderBottom, Solid8), Declaration(BorderLeft, Solid4),
      "background: #f5f5f5; ", "border-bottom: 8px solid #000; ", "border-left: 4px solid #000;");
  }

  lemma ArtPiece2Written()
    ensures Piece2 == StyleText(Decls2)
  {
    ChunkBackgroundBlueSpaced(); ChunkBorderRightSolid8Spaced(); ChunkBorderBottomSolid4Spaced(); ChunkBorderTopSolid4();
    WrittenFour(Declaration(Background, "#0066cc"), Declaration(BorderRight, Solid8), Declaration(BorderBottom, Solid4), Declaration(BorderTop, Solid4),
      "background: #0066cc; ", "border-right: 8px solid #000; ", "border-bottom: 4px solid #000; ", "border-top: 4px solid #000;");
  }

  lemma ArtPiece3Written()
    ensures Piece3 == StyleText(Decls3)
  {
    ChunkBackgroundWhiteSpaced(); ChunkBorderLeftSolid4Spaced(); ChunkBorderBottomSolid4Spaced(); ChunkBorderTopSolid4();
    WrittenFour(Declaration(Background, "#f5f5f5"), Declaration(BorderLeft, Solid4), Declaration(BorderBottom, Solid4), Declaration(BorderTop, Solid4),
      "background: #f5f5f5; ", "border-left: 4px solid #000; ", "border-bottom: 4px solid #000; ", "border-top: 4px solid #000;");
  }

  lemma ArtPiece4Written()
    ensures Piece4 == StyleText(Decls4)
  {
    ChunkBackgroundGoldSpaced(); ChunkBorderRightSolid8Spaced(); ChunkBorderTopSolid4Spaced(); ChunkBorderBottomSolid8();
    WrittenFour(Declaration(Background, "#ffd700"), Declaration(BorderRight, Solid8), Declaration(BorderTop, Solid4), Declaration(BorderBottom, Solid8),
      "background: #ffd700; ", "border-right: 8px solid #000; ", "border-top: 4px solid #000; ", "border-bottom: 8px solid #000;");
  }

  lemma ArtPiece5Written()
    ensures Piece5 == StyleText(Decls5)
  {
    ChunkBackgroundWhiteSpaced(); ChunkBorderLeftSolid4Spaced(); ChunkBorderTopSolid4Spaced(); ChunkBorderBottomSolid8();
    WrittenFour(Declaration(Background, "#f5f5f5"), Declaration(BorderLeft, Solid4), Declaration(BorderTop, Solid4), Declaration(BorderBottom, Solid8),
      "background: #f5f5f5; ", "border-left: 4px solid #000; ", "border-top: 4px solid #000; ", "border-bottom: 8px solid #000;");
  }

  lemma ArtPiece6Written()
    ensures Piece6 == StyleText(Decls6)
  {
    ChunkBackgroundWhiteSpaced(); ChunkBorderRightSolid8Spaced(); ChunkBorderTopSolid4();
    WrittenThree(Declaration(Background, "#f5f5f5"), Declaration(BorderRight, Solid8), Declaration(BorderTop, Solid4),
      "background: #f5f5f5; ", "border-right: 8px solid #000; ", "border-top: 4px solid #000;");
  }

  lemma ArtPiece7Written()
    ensures Piece7 == StyleText(Decls7)
  {
    ChunkBackgroundGradientSpaced(); ChunkBorderLeftSolid4Spaced(); ChunkBorderTopSolid4();
    WrittenThree(Declaration(Background, Gradient), Declaration(BorderLeft, Solid4), Declaration(BorderTop, Solid4),
      "background: " + Gradient + "; ", "border-left: 4px solid #000; ", "border-top: 4px solid #000;");
  }

  lemma ArtPieceWritten(i: nat)
    requires i < |ArtPieces|
    ensures |PieceDeclarations| == |ArtPieces|
    ensures ArtPieces[i] == StyleText(PieceDeclarations[i])
  {
    match i
    case 0 => ArtPiece0Written();
    case 1 => ArtPiece1Written();
    case 2 => ArtPiece2Written();
    case 3 => ArtPiece3Written();
    case 4 => ArtPiece4Written();
    case 5 => ArtPiece5Written();
    case 6 => ArtPiece6Written();
    case 7 => ArtPiece7Written();
  }

  predicate NoSeparator(t: string) {
    ';' !in t && ':' !in t
  }

  lemma NoSeparatorJoined(a: string, b: string, c: string)
    requires NoSeparator(a) && NoSeparator(b) && NoSeparator(c)
    ensures NoSeparator(a + b + c)
  {
  }

  lemma GradientHeadClean()
    ensures NoSeparator("linear-gradient(to bottom, ")
  {
  }
  lemma GradientRedStopsClean()
    ensures NoSeparator("#dc143c 0%, #dc143c 60%, ")
  {
  }
  lemma GradientWhiteStopsClean()
    ensures NoSeparator("#f5f5f5 60%, #f5f5f5 100%)")
  {
  }

  lemma GradientPlain()
    ensures PlainValue(Gradient)
  {
    GradientHeadClean();
    GradientRedStopsClean();
    GradientWhiteStopsClean();
    NoSeparatorJoined("linear-gradient(to bottom, ", "#dc143c 0%, #dc143c 60%, ", "#f5f5f5 60%, #f5f5f5 100%)");
    assert Gradient[0] == 'l' && Gradient[|Gradient| - 1] == ')';
  }

  lemma SolidPlain()
    ensures PlainValue(Solid8) && PlainValue(Solid4)
  {
  }

  lemma ColorsPlain()
    ensures PlainValue("#dc143c") && PlainValue("#f5f5f5") && PlainValue("#0066cc") && PlainValue("#ffd700")
  {
  }

  /** Every value in the table is plain: it reads back as itself. */
  lemma PieceValuesPlain(i: nat, j: nat)
    requires i < |PieceDeclarations| && j < |PieceDeclarations[i]|
    ensures PlainValue(PieceDeclarations[i][j].value)
  {
    GradientPlain();
    SolidPlain();
    ColorsPlain();
  }

  /** Parsing any art piece gives, for every property, the value of its
      declaration in the table, and nothing for a property the piece does
      not declare. */
  lemma ArtPieceReadsBack(i: nat, k: StyleKey)
    requires i < |ArtPieces|
    ensures |PieceDeclarations| == |ArtPieces|
    ensures LabelValue(ArtPieces[i], k) == FirstValue(PieceDeclarations[i], k)
  {
    ArtPieceWritten(i);
    forall j | 0 <= j < |PieceDeclarations[i]|
      ensures PlainValue(PieceDeclarations[i][j].value)
    {
      PieceValuesPlain(i, j);
    }
    StyleTextRoundTrip(PieceDeclarations[i], k);
  }

  /** Whatever index the game board asks for, the style it gets declares a
      background, and the parser finds it. */
  lemma PieceStyleHasBackground(pieceIndex: int)
    ensures LabelValue(MondrianPieceStyle(pieceIndex), Background).Some?
  {
    var i := if 0 <= pieceIndex < |ArtPieces| then pieceIndex else 0;
    ArtPieceReadsBack(i, Background);
    PieceOpensWithBackground(i);
  }

  /** Whatever `parseMondrianStyle` returns for piece `i` is its
      declaration table: a property is present exactly when the piece
      declares it, and holds the declared value. */
  lemma PieceParsed(i: nat, styles: map<StyleKey, string>)
    requires i < |ArtPieces|
    requires forall k :: Parsed(styles, MondrianPieceStyle(i), k)
    ensures |PieceDeclarations| == |ArtPieces|
    ensures forall k :: (k in styles <==> FirstValue(PieceDeclarations[i], k).Some?)
    ensures forall k :: k in styles ==> styles[k] == FirstValue(PieceDeclarations[i], k).value
  {
    var text := MondrianPieceStyle(i);
    var ds := PieceDeclarations[i];
    forall k
      ensures (k in styles <==> FirstValue(ds, k).Some?)
      ensures k in styles ==> styles[k] == FirstValue(ds, k).value
    {
      assert LabelValue(text, k) == FirstValue(ds, k) by {
        ArtPieceReadsBack(i, k);
      }
      assert Parsed(styles, text, k);
    }
  }

  /** The first piece parses to a crimson background and 8px right and
      bottom borders, with no left or top border. */
  lemma FirstPieceParsed(styles: map<StyleKey, string>)
    requires forall k :: Parsed(styles, MondrianPieceStyle(0), k)
    ensures styles == map[Background := "#dc143c", BorderRight := Solid8, BorderBottom := Solid8]
  {
    PieceParsed(0, styles);
    assert PieceDeclarations[0] == Decls0;
    FirstValuesOfDecls0();
    RightBottomStyles(styles, "#dc143c", Solid8, Solid8);
  }

  /** The first values of the first piece's declarations, key by key. */
  lemma FirstValuesOfDecls0()
    ensures FirstValue(Decls0, Background) == Some("#dc143c")
    ensures FirstValue(Decls0, BorderRight) == Some(Solid8)
    ensures FirstValue(Decls0, BorderBottom) == Some(Solid8)
    ensures FirstValue(Decls0, BorderLeft) == None && FirstValue(Decls0, BorderTop) == None
  {
    FirstValueAt(Decls0, 0, Background);
    FirstValueAt(Decls0, 1, BorderRight);
    FirstValueAt(Decls0, 2, BorderBottom);
  }

  /** A style object holding a background and right and bottom borders,
      and no left or top border, is the map of those three. */
  lemma RightBottomStyles(styles: map<StyleKey, string>, bg: string, right: string, bottom: string)
    requires Background in styles && styles[Background] == bg
    requires BorderRight in styles && styles[BorderRight] == right
    requires BorderBottom in styles && styles[BorderBottom] == bottom
    requires BorderLeft !in styles && BorderTop !in styles
    ensures styles == map[Background := bg, BorderRight := right, BorderBottom := bottom]
  {
    forall k | k in styles
      ensures k in {Background, BorderRight, BorderBottom}
    {
      match k
      case Background =>
      case BorderRight =>
      case BorderBottom =>
    }
  }

  /** Every piece declares its background first. */
  lemma PieceOpensWithBackground(i: nat)
    requires i < |PieceDeclarations|
    ensures |PieceDeclarations[i]| > 0 && PieceDeclarations[i][0].key == Background
  {
    match i
    case 0 => assert PieceDeclarations[0] == Decls0;
    case 1 => assert PieceDeclarations[1] == Decls1;
    case 2 => assert PieceDeclarations[2] == Decls2;
    case 3 => assert PieceDeclarations[3] == Decls3;
    case 4 => assert PieceDeclarations[4] == Decls4;
    case 5 => assert PieceDeclarations[5] == Decls5;
    case 6 => assert PieceDeclarations[6] == Decls6;
    case 7 => assert PieceDeclarations[7] == Decls7;
  }

  // ---------------------------------------------------------------------
  // getGameDetails

  /** The figures of one game's detail page; the Korean description, the
      four benefits and the three difficulty labels are kept as counts. */
  datatype GameDetail = GameDetail(
    benefitCount: nat, difficultyLevels: nat, minMinutes: nat, maxMinutes: nat,
    myBestScore: nat, weeklyAvg: nat, completionRate: nat)

  const GameDetailTable: map<string, GameDetail> := map[
    "memory" := GameDetail(4, 3, 2, 5, 1850, 1650, 92),
    "attention" := GameDetail(4, 3, 3, 6, 950, 820, 88),
    "spatial" := GameDetail(4, 3, 4, 8, 2100, 1900, 85),
    "sudoku" := GameDetail(4, 3, 5, 12, 1200, 1050, 78),
    "pattern" := GameDetail(4, 3, 3, 7, 1750, 1580, 90),
    "connect" := GameDetail(4, 3, 2, 6, 1950, 1800, 87)
  ]

  /** `getGameDetails(gameId)`: the entry of a known game, the memory
      game's entry for any other id. */
  function GameDetails(gameId: string): (r: GameDetail)
    ensures gameId in GameDetailTable ==> r == GameDetailTable[gameId]
    ensures gameId !in GameDetailTable ==> r == GameDetailTable["memory"]
  {
    if gameId in GameDetailTable then GameDetailTable[gameId] else GameDetailTable["memory"]
  }

  /** Every detail page lists four benefits and three difficulty levels, a
      proper time range, a completion rate that is a percentage, and a
      weekly average below the personal best. */
  lemma GameDetailsWellFormed(gameId: string)
    ensures var d := GameDetails(gameId);
      d.benefitCount == 4 && d.difficultyLevels == 3
      && 0 < d.minMinutes < d.maxMinutes
      && d.completionRate <= 100
      && d.weeklyAvg < d.myBestScore
  {
  }
}
