/** The m3u scanner against a declarative reading of the playlist. */
module Playlist {
  import opened Vocabulary

  // ------------------------------------------------------------- Python strings

  /** The characters `str.strip` removes. */
  predicate IsSpace(c: char) {
    '\t' <= c <= '\r' || '\U{1C}' <= c <= ' ' || c == '\U{85}' || c == '\U{A0}' || c == '\U{1680}' ||
    '\U{2000}' <= c <= '\U{200A}' || c == '\U{2028}' || c == '\U{2029}' || c == '\U{202F}' ||
    c == '\U{205F}' || c == '\U{3000}'
  }

  function Strip(s: string): string {
    if s != "" && IsSpace(s[0]) then Strip(s[1..])
    else if s != "" && IsSpace(s[|s| - 1]) then Strip(s[..|s| - 1])
    else s
  }

  /** `s` without its first `lo` and its last `|s| - hi` characters, all of them white. */
  ghost predicate IsStripped(s: string, lo: nat, hi: nat, r: string) {
    && lo <= hi <= |s| && r == s[lo..hi]
    && forall i :: 0 <= i < lo || hi <= i < |s| ==> IsSpace(s[i])
  }

  /** Stripping removes white space at the two ends, all of it, and nothing else. */
  lemma {:induction false} StripMeans(s: string) returns (lo: nat, hi: nat)
    ensures IsStripped(s, lo, hi, Strip(s))
    ensures Strip(s) != "" ==> !IsSpace(Strip(s)[0]) && !IsSpace(Strip(s)[|Strip(s)| - 1])
  {
    if s != "" && IsSpace(s[0]) {
      lo, hi := StripMeans(s[1..]);
      lo, hi := lo + 1, hi + 1;
      assert forall i :: 0 < i < |s| ==> s[i] == s[1..][i - 1];
    } else if s != "" && IsSpace(s[|s| - 1]) {
      lo, hi := StripMeans(s[..|s| - 1]);
    } else {
      lo, hi := 0, |s|;
    }
  }

  /** The part of `s` before the first occurrence of `mark`, or all of it. */
  function Before(s: string, mark: string): string {
    if s == "" || mark <= s then "" else [s[0]] + Before(s[1..], mark)
  }

  /** `s.split(c, 1)`. */
  function SplitOnce(s: string, c: char): seq<string> {
    var left := Before(s, [c]);
    if |left| < |s| then [left, s[|left| + 1..]] else [s]
  }

  /** Nowhere in its first `n` characters does an occurrence of `mark` begin. */
  ghost predicate NoneBefore(s: string, mark: string, n: nat) {
    n <= |s| && forall i :: 0 <= i < n ==> !(mark <= s[i..])
  }

  /** The first piece of a split is exactly what precedes the first occurrence of the
      separator, or everything if there is none. */
  lemma {:induction false} BeforeMeans(s: string, mark: string)
    requires mark != ""
    ensures var left := Before(s, mark);
      && left <= s && NoneBefore(s, mark, |left|)
      && (|left| < |s| ==> mark <= s[|left|..])
  {
    if s != "" && !(mark <= s) {
      BeforeMeans(s[1..], mark);
      var rest := Before(s[1..], mark);
      assert s == [s[0]] + s[1..];
      forall i | 0 <= i < 1 + |rest| ensures !(mark <= s[i..]) {
        if i > 0 {
          assert s[i..] == s[1..][i - 1..];
        }
      }
      if 1 + |rest| < |s| {
        assert s[1 + |rest|..] == s[1..][|rest|..];
      }
    }
  }

  /** Splitting at the first separator loses nothing but that separator. */
  lemma SplitOnceMeans(s: string, c: char)
    ensures var pieces := SplitOnce(s, c);
      && c !in pieces[0]
      && (|pieces| == 2 <==> c in s)
      && s == if |pieces| == 2 then pieces[0] + [c] + pieces[1] else pieces[0]
  {
    BeforeMeans(s, [c]);
    var left := Before(s, [c]);
    forall i | 0 <= i < |left| ensures left[i] != c {
      assert s[i] == left[i] && !([c] <= s[i..]);
    }
    if |left| < |s| {
      assert s[|left|] == s[|left|..][0];
      assert s == left + [c] + s[|left| + 1..];
    } else {
      assert left == s;
    }
  }

  // ---------------------------------------------------------------- one line

  const EXTINF := "#EXTINF:"
  const HLS_VERSION := "#EXT-X-VERSION:"
  const HLS_STREAM := "#EXT-X-STREAM-INF:"

  datatype Line =
    | Extinf(length: seq<string>, title: string)
    | BadExtinf
    | Hls
    | Comment
    | Blank
    | Item(url: string)
    | BadItem(url: string)

  /** What a line says. `isUrl` stands for the URL parser's verdict. */
  function Read(raw: string, isUrl: string -> bool): Line {
    var line := Strip(raw);
    if EXTINF <= line then
      var info := SplitOnce(Before(line[|EXTINF|..], EXTINF), ',');
      if |info| != 2 then BadExtinf else Extinf(SplitOnce(info[0], ' '), Strip(info[1]))
    else if HLS_VERSION <= line || HLS_STREAM <= line then Hls
    else if "#" <= line then Comment
    else if |line| == 0 then Blank
    else if isUrl(line) then Item(line)
    else BadItem(line)
  }

  /** `left` is all of `s` before the first occurrence of `mark`, or all of it. */
  ghost predicate IsBefore(s: string, mark: string, left: string) {
    && left <= s && NoneBefore(s, mark, |left|)
    && (|left| == |s| || mark <= s[|left|..])
  }

  /** `pieces` are what is left and right of the first `c`, or the whole without one. */
  ghost predicate IsSplit(s: string, c: char, pieces: seq<string>) {
    || (c !in s && pieces == [s])
    || (|pieces| == 2 && c !in pieces[0] && s == pieces[0] + [c] + pieces[1])
  }

  /** The line is an EXTINF tag of length text `a` and title text `t`: a comma separates
      them, the first one, and a second tag on the line ends the title. */
  ghost predicate IsExtinf(line: string, a: string, t: string) {
    "#EXTINF:" <= line && ',' !in a && IsBefore(line[8..], "#EXTINF:", a + "," + t)
  }

  /** What a stripped line says, without a word on how it is taken apart. */
  ghost predicate Says(line: string, isUrl: string -> bool, l: Line) {
    var hls := "#EXT-X-VERSION:" <= line || "#EXT-X-STREAM-INF:" <= line;
    match l
    case Extinf(length, title) => exists a, t :: IsExtinf(line, a, t) && IsSplit(a, ' ', length) && title == Strip(t)
    case BadExtinf => "#EXTINF:" <= line && forall a, t :: !IsExtinf(line, a, t)
    case Hls => hls
    case Comment => "#" <= line && !hls && !("#EXTINF:" <= line)
    case Blank => line == ""
    case Item(url) => line != "" && line[0] != '#' && isUrl(line) && url == line
    case BadItem(url) => line != "" && line[0] != '#' && !isUrl(line) && url == line
  }

  /** `lines` are what the raw lines say. */
  ghost predicate Reads(raw: seq<string>, isUrl: string -> bool, lines: seq<Line>) {
    |lines| == |raw| && forall i :: 0 <= i < |raw| ==> Says(Strip(raw[i]), isUrl, lines[i])
  }

  lemma BeforeIsUnique(s: string, mark: string, a: string, b: string)
    requires IsBefore(s, mark, a) && IsBefore(s, mark, b)
    ensures a == b
  {
    assert |a| == |b|;
    assert a == s[..|a|] && b == s[..|b|];
  }

  lemma SplitIsUnique(s: string, c: char, p: seq<string>, q: seq<string>)
    requires IsSplit(s, c, p) && IsSplit(s, c, q)
    ensures p == q
  {
    if |p| == 2 {
      assert s[|p[0]|] == c;
      assert |q| == 2;
      CommaIsFirst(p[0], p[1], q[0], q[1], c);
    }
  }

  lemma CommaIsFirst(a: string, t: string, a': string, t': string, c: char)
    requires c !in a && c !in a' && a + [c] + t == a' + [c] + t'
    ensures a == a' && t == t'
  {
    var s := a + [c] + t;
    assert s[|a|] == c && s[|a'|] == c;
    assert forall i :: 0 <= i < |a| ==> s[i] == a[i];
    assert forall i :: 0 <= i < |a'| ==> s[i] == a'[i];
    assert a == s[..|a|] && a' == s[..|a'|];
    assert t == s[|a| + 1..] && t' == s[|a'| + 1..];
  }

  lemma ExtinfIsUnique(line: string, a: string, t: string, a': string, t': string)
    requires IsExtinf(line, a, t) && IsExtinf(line, a', t')
    ensures a == a' && t == t'
  {
    BeforeIsUnique(line[8..], "#EXTINF:", a + "," + t, a' + "," + t');
    CommaIsFirst(a, t, a', t', ',');
  }

  /** A line says one thing only. */
  lemma SaysIsUnique(line: string, isUrl: string -> bool, l: Line, m: Line)
    requires Says(line, isUrl, l) && Says(line, isUrl, m)
    ensures l == m
  {
    hide IsExtinf, IsSplit, Strip;
    TagsDiffer(line);
    if l.Extinf? && m.Extinf? {
      var a, t :| IsExtinf(line, a, t) && IsSplit(a, ' ', l.length) && l.title == Strip(t);
      var b, u :| IsExtinf(line, b, u) && IsSplit(b, ' ', m.length) && m.title == Strip(u);
      ExtinfIsUnique(line, a, t, b, u);
      SplitIsUnique(a, ' ', l.length, m.length);
    }
  }

  /** A line starts with one tag at most. */
  lemma TagsDiffer(line: string)
    ensures "#EXTINF:" <= line ==> line != "" && line[0] == '#' && !("#EXT-X-VERSION:" <= line) && !("#EXT-X-STREAM-INF:" <= line)
    ensures "#EXT-X-VERSION:" <= line || "#EXT-X-STREAM-INF:" <= line ==> line != "" && line[0] == '#'
    ensures forall a, t :: IsExtinf(line, a, t) ==> "#EXTINF:" <= line
  {
    if "#EXTINF:" <= line {
      assert line[4] == 'I';
    }
    if "#EXT-X-VERSION:" <= line {
      assert line[4] == '-';
    }
    if "#EXT-X-STREAM-INF:" <= line {
      assert line[4] == '-';
    }
  }

  /** Reading a line gives what the line says. */
  lemma ReadSays(raw: string, isUrl: string -> bool)
    ensures Says(Strip(raw), isUrl, Read(raw, isUrl))
  {
    hide Strip, Before;
    var line := Strip(raw);
    TagsDiffer(line);
    if EXTINF <= line {
      ExtinfSays(line, isUrl);
    }
  }

  lemma HasComma(a: string, t: string)
    ensures ',' in a + "," + t
  {
    assert (a + "," + t)[|a|] == ',';
  }

  lemma ExtinfSays(line: string, isUrl: string -> bool)
    requires EXTINF <= line
    ensures var info := SplitOnce(Before(line[|EXTINF|..], EXTINF), ',');
      Says(line, isUrl, if |info| != 2 then BadExtinf else Extinf(SplitOnce(info[0], ' '), Strip(info[1])))
  {
    hide Strip, Before;
    var text := Before(line[|EXTINF|..], EXTINF);
    BeforeMeans(line[|EXTINF|..], EXTINF);
    SplitOnceMeans(text, ',');
    var info := SplitOnce(text, ',');
    if |info| == 2 {
      SplitOnceMeans(info[0], ' ');
      assert text == info[0] + "," + info[1];
      assert IsExtinf(line, info[0], info[1]);
      assert IsSplit(info[0], ' ', SplitOnce(info[0], ' '));
    } else {
      forall a, t ensures !IsExtinf(line, a, t) {
        HasComma(a, t);
        if IsExtinf(line, a, t) {
          BeforeIsUnique(line[8..], "#EXTINF:", a + "," + t, text);
          assert false;
        }
      }
    }
  }

  /** A line that ends the scan. */
  predicate Stops(l: Line) {
    l.Hls? || l.BadItem?
  }

  // -------------------------------------------------------------- declarative

  datatype PlaylistItem = PlaylistItem(length: Option<seq<string>>, title: Option<string>, url: string)

  datatype Parsed =
    | Parsed(items: seq<PlaylistItem>)
    | Supported
    | Invalid(url: string)

  /** The positions of the item lines. */
  function ItemLines(lines: seq<Line>): seq<nat> {
    if lines == [] then []
    else ItemLines(lines[..|lines| - 1]) + if lines[|lines| - 1].Item? then [|lines| - 1] else []
  }

  /** Item `k` follows line `From(ps, k) - 1`, the item before it. */
  function From(ps: seq<nat>, k: nat): nat
    requires k <= |ps|
  {
    if k == 0 then 0 else ps[k - 1] + 1
  }

  /** Line `e` is the last well-formed EXTINF line in `[lo, hi)`. */
  ghost predicate IsLastExtinf(lines: seq<Line>, lo: nat, hi: nat, e: nat) {
    && lo <= e < hi <= |lines| && lines[e].Extinf?
    && forall i :: e < i < hi ==> !lines[i].Extinf?
  }

  /** `length` and `title` come from the last well-formed EXTINF line in `[lo, hi)`, or
      are absent if there is none. */
  ghost predicate Annotates(lines: seq<Line>, lo: nat, hi: nat, length: Option<seq<string>>, title: Option<string>) {
    if length.Some? then
      exists e: nat :: IsLastExtinf(lines, lo, hi, e) && length.value == lines[e].length && title == Some(lines[e].title)
    else
      title.None? && hi <= |lines| && forall i :: lo <= i < hi ==> !lines[i].Extinf?
  }

  ghost predicate ItemMeets(lines: seq<Line>, ps: seq<nat>, k: nat, item: PlaylistItem)
    requires k < |ps|
  {
    && ps[k] < |lines| && lines[ps[k]] == Item(item.url)
    && Annotates(lines, From(ps, k), ps[k], item.length, item.title)
  }

  ghost predicate NoStopBefore(lines: seq<Line>, n: nat) {
    n <= |lines| && forall i :: 0 <= i < n ==> !Stops(lines[i])
  }

  /** The playlist is the item lines with their annotations; or else the first line that
      stops the scan is an HLS tag, or an item that is no URL. */
  ghost predicate Meets(lines: seq<Line>, r: Parsed) {
    match r
    case Parsed(items) =>
      && NoStopBefore(lines, |lines|)
      && |items| == |ItemLines(lines)|
      && forall k :: 0 <= k < |items| ==> ItemMeets(lines, ItemLines(lines), k, items[k])
    case Supported => exists n :: 0 <= n < |lines| && NoStopBefore(lines, n) && lines[n].Hls?
    case Invalid(url) => exists n :: 0 <= n < |lines| && NoStopBefore(lines, n) && lines[n] == BadItem(url)
  }

  function ReadAll(raw: seq<string>, isUrl: string -> bool): seq<Line> {
    seq(|raw|, i requires 0 <= i < |raw| => Read(raw[i], isUrl))
  }

  /** Every playlist says exactly one thing, and that is what is read. */
  lemma ReadAllReads(raw: seq<string>, isUrl: string -> bool)
    ensures forall lines :: Reads(raw, isUrl, lines) <==> lines == ReadAll(raw, isUrl)
  {
    hide Says, Read, Strip;
    var all := ReadAll(raw, isUrl);
    forall i | 0 <= i < |raw| ensures Says(Strip(raw[i]), isUrl, all[i]) {
      ReadSays(raw[i], isUrl);
    }
    forall lines | Reads(raw, isUrl, lines) ensures lines == all {
      forall i | 0 <= i < |raw| ensures lines[i] == all[i] {
        SaysIsUnique(Strip(raw[i]), isUrl, lines[i], all[i]);
      }
    }
  }

  // ------------------------------------------------------------------ scanner

  /** The first `n` lines have been scanned into `items`, with `length` and `title` at
      hand for the next one. */
  ghost predicate Scanned(lines: seq<Line>, n: nat, items: seq<PlaylistItem>, length: Option<seq<string>>, title: Option<string>) {
    && NoStopBefore(lines, n)
    && var ps := ItemLines(lines[..n]);
       && |items| == |ps|
       && From(ps, |ps|) <= n
       && (forall k :: 0 <= k < |items| ==> ItemMeets(lines, ps, k, items[k]))
       && Annotates(lines, From(ps, |ps|), n, length, title)
  }

  lemma ItemLinesNext(lines: seq<Line>, n: nat)
    requires n < |lines|
    ensures ItemLines(lines[..n + 1]) == ItemLines(lines[..n]) + if lines[n].Item? then [n] else []
  {
    assert lines[..n + 1][..n] == lines[..n];
  }

  /** A line that says nothing leaves the current annotation in place. */
  lemma ScanSkips(lines: seq<Line>, n: nat, items: seq<PlaylistItem>, length: Option<seq<string>>, title: Option<string>)
    requires Scanned(lines, n, items, length, title)
    requires n < |lines| && (lines[n].BadExtinf? || lines[n].Comment? || lines[n].Blank?)
    ensures Scanned(lines, n + 1, items, length, title)
  {
    hide ItemLines;
    ItemLinesNext(lines, n);
    if length.Some? {
      var lo := From(ItemLines(lines[..n]), |items|);
      var e: nat :| IsLastExtinf(lines, lo, n, e) && length.value == lines[e].length && title == Some(lines[e].title);
      assert IsLastExtinf(lines, lo, n + 1, e);
    }
  }

  /** A well-formed EXTINF line replaces the current annotation. */
  lemma ScanAnnotates(lines: seq<Line>, n: nat, items: seq<PlaylistItem>, length: Option<seq<string>>, title: Option<string>)
    requires Scanned(lines, n, items, length, title) && n < |lines| && lines[n].Extinf?
    ensures Scanned(lines, n + 1, items, Some(lines[n].length), Some(lines[n].title))
  {
    hide ItemLines;
    ItemLinesNext(lines, n);
    assert IsLastExtinf(lines, From(ItemLines(lines[..n]), |items|), n + 1, n);
  }

  /** An item takes the current annotation, and the next one starts without. */
  lemma ScanTakes(lines: seq<Line>, n: nat, items: seq<PlaylistItem>, length: Option<seq<string>>, title: Option<string>)
    requires Scanned(lines, n, items, length, title) && n < |lines| && lines[n].Item?
    ensures Scanned(lines, n + 1, items + [PlaylistItem(length, title, lines[n].url)], None, None)
  {
    hide ItemLines;
    ItemLinesNext(lines, n);
    var ps, ps' := ItemLines(lines[..n]), ItemLines(lines[..n + 1]);
    var items' := items + [PlaylistItem(length, title, lines[n].url)];
    forall k | 0 <= k < |items'| ensures ItemMeets(lines, ps', k, items'[k]) {
      assert From(ps', k) == From(ps, k);
      if k < |ps| {
        assert ItemMeets(lines, ps, k, items[k]);
      }
    }
  }

  /** `parse_m3u`, after the data has been fetched and split into lines: the result is what
      the lines say. */
  method ParseM3u(raw: seq<string>, isUrl: string -> bool) returns (r: Parsed)
    ensures exists lines :: Reads(raw, isUrl, lines) && Meets(lines, r)
    ensures forall lines :: Reads(raw, isUrl, lines) ==> Meets(lines, r)
  {
    r := Scan(raw, isUrl);
    hide Meets, Reads;
    ReadAllReads(raw, isUrl);
    assert Reads(raw, isUrl, ReadAll(raw, isUrl));
  }

  method Scan(raw: seq<string>, isUrl: string -> bool) returns (r: Parsed)
    ensures Meets(ReadAll(raw, isUrl), r)
  {
    hide Scanned, Strip, Before, SplitOnce, ItemLines;
    ghost var lines := ReadAll(raw, isUrl);
    var playlist: seq<PlaylistItem> := [];
    var length: Option<seq<string>> := None;
    var title: Option<string> := None;
    ScanStarts(lines);
    for n := 0 to |raw|
      invariant Scanned(lines, n, playlist, length, title)
    {
      ScanHasNotStopped(lines, n, playlist, length, title);
      var line := Strip(raw[n]);
      if EXTINF <= line {
        var info := SplitOnce(Before(line[|EXTINF|..], EXTINF), ',');
        if |info| != 2 {
          ScanSkips(lines, n, playlist, length, title);
          continue;
        }
        ScanAnnotates(lines, n, playlist, length, title);
        length := Some(SplitOnce(info[0], ' '));
        title := Some(Strip(info[1]));
      } else if HLS_VERSION <= line || HLS_STREAM <= line {
        return Supported;
      } else if "#" <= line {
        ScanSkips(lines, n, playlist, length, title);
        continue;
      } else if |line| != 0 {
        if !isUrl(line) {
          return Invalid(line);
        }
        ScanTakes(lines, n, playlist, length, title);
        playlist := playlist + [PlaylistItem(length, title, line)];
        length := None;
        title := None;
      } else {
        ScanSkips(lines, n, playlist, length, title);
      }
    }
    ScanEnds(lines, playlist, length, title);
    return Parsed(playlist);
  }

  lemma ScanStarts(lines: seq<Line>)
    ensures Scanned(lines, 0, [], None, None)
  {
  }

  lemma ScanHasNotStopped(lines: seq<Line>, n: nat, items: seq<PlaylistItem>, length: Option<seq<string>>, title: Option<string>)
    requires Scanned(lines, n, items, length, title)
    ensures NoStopBefore(lines, n)
  {
  }

  lemma ScanEnds(lines: seq<Line>, items: seq<PlaylistItem>, length: Option<seq<string>>, title: Option<string>)
    requires Scanned(lines, |lines|, items, length, title)
    ensures Meets(lines, Parsed(items))
  {
    hide ItemLines;
    assert lines[..|lines|] == lines;
  }

  // ----------------------------------------------------- about the reading

  /** The item lines are listed in order, each once, and none is missing. */
  lemma {:induction false} ItemLinesMean(lines: seq<Line>)
    ensures var ps := ItemLines(lines);
      && (forall k :: 0 <= k < |ps| ==> ps[k] < |lines| && lines[ps[k]].Item?)
      && (forall j, k :: 0 <= j < k < |ps| ==> ps[j] < ps[k])
      && (forall i :: 0 <= i < |lines| && lines[i].Item? ==> i in ps)
  {
    if lines != [] {
      ItemLinesMean(lines[..|lines| - 1]);
    }
  }

  /** No EXTINF line annotates two items. */
  lemma ExtinfServesOneItem(lines: seq<Line>, j: nat, k: nat, e: nat)
    requires var ps := ItemLines(lines);
      && j < |ps| && k < |ps|
      && IsLastExtinf(lines, From(ps, j), ps[j], e) && IsLastExtinf(lines, From(ps, k), ps[k], e)
    ensures j == k
  {
    ItemLinesMean(lines);
  }

  /** The declarative reading determines the result. */
  lemma MeetsIsUnique(lines: seq<Line>, r: Parsed, r': Parsed)
    requires Meets(lines, r) && Meets(lines, r')
    ensures r == r'
  {
    if r.Parsed? && r'.Parsed? {
      forall k | 0 <= k < |r.items| ensures r.items[k] == r'.items[k] {
        assert ItemMeets(lines, ItemLines(lines), k, r.items[k]);
        assert ItemMeets(lines, ItemLines(lines), k, r'.items[k]);
        AnnotationIsUnique(lines, From(ItemLines(lines), k), ItemLines(lines)[k], r.items[k], r'.items[k]);
      }
    }
  }

  lemma AnnotationIsUnique(lines: seq<Line>, lo: nat, hi: nat, a: PlaylistItem, b: PlaylistItem)
    requires Annotates(lines, lo, hi, a.length, a.title) && Annotates(lines, lo, hi, b.length, b.title)
    ensures a.length == b.length && a.title == b.title
  {
    if a.length.Some? && b.length.Some? {
      var e: nat :| IsLastExtinf(lines, lo, hi, e) && a.length.value == lines[e].length && a.title == Some(lines[e].title);
      var f: nat :| IsLastExtinf(lines, lo, hi, f) && b.length.value == lines[f].length && b.title == Some(lines[f].title);
      assert e == f;
    }
  }
}
