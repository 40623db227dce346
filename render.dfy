/** Cell rendering for the resource tables: a builder that collects display
    decorators and replaceable sort/filter transforms, the render function it
    builds, and the stock decorators (ellipsis, translation, relative time,
    status badge, selector badges). */
module Render {
  import opened Wrappers
  import opened Strings

  /** A display value: a plain string, or an element with a `title`, a class list,
      child nodes and `data-*` attributes. An element's `textContent` is that of its
      children, and assigning `textContent = s` leaves the single child `Text(s)`.
      The DOM `title` property is a string ("" when unset), never null. */
  datatype Node =
    | Text(s: string)
    | Elem(title: string, classes: seq<string>, children: seq<Node>, dataset: map<string, string>)

  function TextContent(n: Node): string
    decreases n, 1
  {
    match n
    case Text(s) => s
    case Elem(_, _, children, _) => ConcatText(children)
  }

  function ConcatText(nodes: seq<Node>): string
    decreases nodes, 0
  {
    if nodes == [] then "" else TextContent(nodes[0]) + ConcatText(nodes[1..])
  }

  lemma ConcatSingle(n: Node)
    ensures ConcatText([n]) == TextContent(n)
  {
    assert [n][1..] == [];
  }

  /** `(previous, data, row) => next`: a display decorator. */
  type Decorator<!R> = (Node, string, R) -> Node

  /** The left fold `reduce((previous, decorator) => decorator(previous, data, row), seed)`. */
  function Fold<R>(decorators: seq<Decorator<R>>, seed: Node, data: string, row: R): Node
    decreases |decorators|
  {
    if decorators == [] then seed
    else Fold(decorators[1..], decorators[0](seed, data, row), data, row)
  }

  /** Folding one more decorator applies it to the result of the shorter fold. */
  lemma {:induction false} FoldAppend<R>(ds: seq<Decorator<R>>, d: Decorator<R>, seed: Node, data: string, row: R)
    ensures Fold(ds + [d], seed, data, row) == d(Fold(ds, seed, data, row), data, row)
    decreases |ds|
  {
    if ds != [] {
      assert (ds + [d])[1..] == ds[1..] + [d];
      FoldAppend(ds[1..], d, ds[0](seed, data, row), data, row);
    }
  }

  lemma FoldTwo<R>(d1: Decorator<R>, d2: Decorator<R>, seed: Node, data: string, row: R)
    ensures Fold([d1, d2], seed, data, row) == d2(d1(seed, data, row), data, row)
  {
    assert [d1, d2][1..] == [d2];
    assert [d2][1..] == [];
    assert Fold([d1, d2], seed, data, row) == Fold([d2], d1(seed, data, row), data, row);
    assert Fold([d2], d1(seed, data, row), data, row) == Fold([], d2(d1(seed, data, row), data, row), data, row);
  }

  /** `(data) => data`, the default sort and filter transform. */
  function Identity<R>(data: string, row: R): string {
    data
  }

  /** The function `build()` returns: a snapshot of the builder's decorators and transforms. */
  datatype Renderer<!R> = Renderer(decorators: seq<Decorator<R>>, filterFn: (string, R) -> string, sortFn: (string, R) -> string)
  {
    /** The value shown for `data` in render mode `mode`. */
    function Render(data: string, mode: string, row: R): (n: Node)
      ensures mode == "sort" || mode == "type" ==> n == Text(sortFn(data, row))
      ensures mode == "filter" ==> n == Text(filterFn(data, row))
      ensures mode == "display" && decorators == [] ==> n == Text(data)
      ensures mode !in {"sort", "type", "filter", "display"} ==> n == Text(data)
    {
      if mode == "sort" || mode == "type" then Text(sortFn(data, row))
      else if mode == "filter" then Text(filterFn(data, row))
      else if mode == "display" then Fold(decorators, Text(data), data, row)
      else Text(data)
    }
  }

  /** In display mode, a renderer with one more decorator shows that decorator applied
      to what the shorter renderer shows; the other modes do not see decorators. */
  lemma DisplayAfterDecorate<R>(r: Renderer<R>, d: Decorator<R>, data: string, row: R)
    ensures Renderer(r.decorators + [d], r.filterFn, r.sortFn).Render(data, "display", row)
            == d(r.Render(data, "display", row), data, row)
    ensures forall mode :: mode != "display" ==>
              Renderer(r.decorators + [d], r.filterFn, r.sortFn).Render(data, mode, row) == r.Render(data, mode, row)
  {
    FoldAppend(r.decorators, d, Text(data), data, row);
  }

  class RenderBuilder<R> {
    var decorators: seq<Decorator<R>>
    var filterFn: (string, R) -> string
    var sortFn: (string, R) -> string

    /** `RenderBuilder.create()`: no decorators, identity sort and filter. */
    constructor Create()
      ensures decorators == []
      ensures filterFn == Identity && sortFn == Identity
    {
      decorators := [];
      filterFn := Identity;
      sortFn := Identity;
    }

    method Decorate(d: Decorator<R>)
      modifies this
      ensures decorators == old(decorators) + [d]
      ensures filterFn == old(filterFn) && sortFn == old(sortFn)
    {
      decorators := decorators + [d];
    }

    method Filter(f: (string, R) -> string)
      modifies this
      ensures filterFn == f
      ensures decorators == old(decorators) && sortFn == old(sortFn)
    {
      filterFn := f;
    }

    method Sort(f: (string, R) -> string)
      modifies this
      ensures sortFn == f
      ensures decorators == old(decorators) && filterFn == old(filterFn)
    {
      sortFn := f;
    }

    method Build() returns (r: Renderer<R>)
      ensures r.decorators == decorators && r.filterFn == filterFn && r.sortFn == sortFn
    {
      r := Renderer(decorators, filterFn, sortFn);
    }
  }

  // ---------------------------------------------------------------- ellipsis

  const TruncateClasses: seq<string> := ["text-truncate", "d-inline-block"]

  /** Wraps the previous value in a truncating span whose title is the plain text,
      or the wrapped element's own title. */
  function Ellipsis(previous: Node): (span: Node)
    ensures span.Elem? && span.classes == TruncateClasses && span.children == [previous]
    ensures TextContent(span) == TextContent(previous)
    ensures span.title == if previous.Text? then previous.s else previous.title
  {
    match previous
    case Text(s) =>
      ConcatSingle(previous);
      Elem(s, TruncateClasses, [Text(s)], map[])
    case Elem(title, _, _, _) =>
      ConcatSingle(previous);
      Elem(title, TruncateClasses, [previous], map[])
  }

  function EllipsisDecorator<R>(): Decorator<R> {
    (previous, data, row) => Ellipsis(previous)
  }

  // ------------------------------------------------------------- translation

  /** Replaces the previous value by the translation of its text. */
  function TranslateCell(translateTableCell: string -> string, previous: Node): (r: Node)
    ensures r.Text? && r.s == translateTableCell(TextContent(previous))
  {
    Text(translateTableCell(TextContent(previous)))
  }

  function TranslateDecorator<R>(translateTableCell: string -> string): Decorator<R> {
    (previous, data, row) => TranslateCell(translateTableCell, previous)
  }

  method RenderDefault<R>(translateTableCell: string -> string) returns (r: Renderer<R>)
    ensures forall data, row :: r.Render(data, "display", row) == Ellipsis(Text(translateTableCell(data)))
    ensures forall data, row :: r.Render(data, "sort", row) == Text(data) && r.Render(data, "filter", row) == Text(data)
  {
    var b := new RenderBuilder<R>.Create();
    b.Decorate(TranslateDecorator(translateTableCell));
    b.Decorate(EllipsisDecorator());
    r := b.Build();
    assert r.decorators == [TranslateDecorator(translateTableCell), EllipsisDecorator()];
    forall data, row ensures r.Render(data, "display", row) == Ellipsis(Text(translateTableCell(data))) {
      FoldTwo(TranslateDecorator(translateTableCell), EllipsisDecorator(), Text(data), data, row);
    }
  }

  /** Translating and then truncating shows the translation, with the translation as tooltip. */
  lemma DefaultDisplayShowsTranslation<R>(r: Renderer<R>, translateTableCell: string -> string, data: string, row: R)
    requires forall d, w :: r.Render(d, "display", w) == Ellipsis(Text(translateTableCell(d)))
    ensures var shown := r.Render(data, "display", row);
            shown.Elem? && TextContent(shown) == translateTableCell(data) && shown.title == translateTableCell(data)
  {
  }

  // ----------------------------------------------------------- relative time

  const SecondMs: nat := 1000
  const MinuteMs: nat := 60 * SecondMs
  const HourMs: nat := 60 * MinuteMs
  const DayMs: nat := 24 * HourMs
  const YearMs: nat := 365 * DayMs

  /** The units, smallest first, with their suffixes. */
  const Units: seq<char> := ['s', 'm', 'h', 'd', 'y']

  function UnitMs(unit: char): nat {
    match unit
    case 'y' => YearMs
    case 'd' => DayMs
    case 'h' => HourMs
    case 'm' => MinuteMs
    case _ => SecondMs
  }

  datatype Age = Age(count: nat, unit: char)

  /** Successive floor divisions divide by the product of the divisors. */
  lemma DivChain(a: nat)
    ensures a / 1000 / 60 == a / MinuteMs
    ensures a / MinuteMs / 60 == a / HourMs
    ensures a / HourMs / 24 == a / DayMs
    ensures a / DayMs / 365 == a / YearMs
  {
  }

  /** The age of a non-negative millisecond difference, in the largest unit that
      fits at least once (seconds when none does), counted by floor division. */
  function LargestUnit(diffMs: nat): (age: Age)
    ensures age.unit in Units
    ensures age.count == diffMs / UnitMs(age.unit)
    ensures age.unit != 's' ==> age.count >= 1
    ensures forall i :: 0 <= i < |Units| && UnitMs(Units[i]) > UnitMs(age.unit) ==> diffMs < UnitMs(Units[i])
  {
    var seconds := diffMs / 1000;
    var minutes := seconds / 60;
    var hours := minutes / 60;
    var days := hours / 24;
    var years := days / 365;
    DivChain(diffMs);
    if years > 0 then Age(years, 'y')
    else if days > 0 then Age(days, 'd')
    else if hours > 0 then Age(hours, 'h')
    else if minutes > 0 then Age(minutes, 'm')
    else Age(seconds, 's')
  }

  /** "in X" for a timestamp (in seconds) after `nowMs`, "X ago" otherwise. */
  function RelativeText(nowMs: int, timestamp: int): string {
    var diff := nowMs - timestamp * 1000;
    var future := diff < 0;
    var age := LargestUnit(if future then -diff else diff);
    var amount := NatToString(age.count) + [age.unit];
    if future then "in " + amount else amount + " ago"
  }

  /** The text reads "in ..." exactly when the timestamp lies in the future, and
      "... ago" otherwise. */
  lemma RelativeTextDirection(nowMs: int, timestamp: int)
    ensures var t := RelativeText(nowMs, timestamp);
            (timestamp * 1000 > nowMs <==> |t| >= 3 && t[..3] == "in ")
            && (timestamp * 1000 <= nowMs <==> |t| >= 4 && t[|t| - 4..] == " ago")
  {
    var t := RelativeText(nowMs, timestamp);
    var diff := nowMs - timestamp * 1000;
    var age := LargestUnit(if diff < 0 then -diff else diff);
    var amount := NatToString(age.count) + [age.unit];
    if diff < 0 {
      assert t == "in " + amount;
      assert t[|t| - 1] == age.unit;
    } else {
      assert t == amount + " ago";
      assert IsDigit(t[0]);
    }
  }

  lemma RelativeTextExamples()
    ensures RelativeText(100_000_000_000, 100_000_000 - 90000) == "1d ago"
    ensures RelativeText(100_000_000_000, 100_000_000 + 120) == "in 2m"
    ensures RelativeText(5000, 5) == "0s ago"
  {
    assert NatToString(1) == "1";
    assert NatToString(2) == "2";
    assert NatToString(0) == "0";
  }

  /** The element the relative-time decorator produces: the relative text, the absolute
      time as tooltip and the raw value as `data-age-timestamp`. */
  function RelativeTimeSpan(nowMs: int, data: string, timestamp: int, absolute: string): (span: Node)
    ensures span.Elem? && span.title == absolute && span.dataset == map["ageTimestamp" := data]
    ensures TextContent(span) == RelativeText(nowMs, timestamp)
  {
    ConcatSingle(Text(RelativeText(nowMs, timestamp)));
    Elem(absolute, [], [Text(RelativeText(nowMs, timestamp))], map["ageTimestamp" := data])
  }

  /** `toSeconds` stands for `Number(data)`, `format` for `dayjs(ms).format()`. */
  function RelativeTimeDecorator<R>(nowMs: int, toSeconds: string -> int, format: int -> string): Decorator<R> {
    (previous, data, row) => RelativeTimeSpan(nowMs, data, toSeconds(data), format(toSeconds(data) * 1000))
  }

  method RenderRelativeTime<R>(nowMs: int, toSeconds: string -> int, format: int -> string) returns (r: Renderer<R>)
    ensures forall data, row :: r.Render(data, "display", row)
              == Ellipsis(RelativeTimeSpan(nowMs, data, toSeconds(data), format(toSeconds(data) * 1000)))
    ensures forall data, row :: r.Render(data, "sort", row) == Text(data) && r.Render(data, "filter", row) == Text(data)
  {
    var b := new RenderBuilder<R>.Create();
    b.Decorate(RelativeTimeDecorator(nowMs, toSeconds, format));
    b.Decorate(EllipsisDecorator());
    r := b.Build();
    var d1, d2 := RelativeTimeDecorator(nowMs, toSeconds, format), EllipsisDecorator();
    assert r.decorators == [d1, d2];
    forall data, row ensures r.Render(data, "display", row)
                             == Ellipsis(RelativeTimeSpan(nowMs, data, toSeconds(data), format(toSeconds(data) * 1000))) {
      FoldTwo(d1, d2, Text(data), data, row);
    }
  }

  // ------------------------------------------------------------------ status

  /** The status map's keys, in the object's key order, and their badge classes. */
  const StatusKeys: seq<string> := ["Completed", "Succeeded", "Running", "Pending", "OOMKilled", "Failed", "CrashLoopBackOff"]
  const StatusClasses: seq<string> := ["info", "info", "success", "warning", "danger", "danger", "danger"]

  /** `keys.indexOf(x)`: the first position of `x`, or -1. */
  function IndexOf(keys: seq<string>, x: string): (i: int)
    ensures -1 <= i < |keys|
    ensures i == -1 <==> x !in keys
    ensures i >= 0 ==> keys[i] == x && x !in keys[..i]
    decreases |keys|
  {
    if keys == [] then -1
    else if keys[0] == x then 0
    else
      var j := IndexOf(keys[1..], x);
      assert keys[1..][..if j < 0 then 0 else j] == keys[1..if j < 0 then 1 else j + 1];
      if j == -1 then -1 else j + 1
  }

  /** `statusMap[data] ?? "secondary"`. */
  function StatusClass(data: string): (cls: string)
    ensures data !in StatusKeys ==> cls == "secondary"
    ensures data in StatusKeys ==> cls in {"info", "success", "warning", "danger"}
  {
    var i := IndexOf(StatusKeys, data);
    if i == -1 then "secondary" else StatusClasses[i]
  }

  /** Plain text becomes a badge coloured by the raw status; an element is kept. */
  function StatusBadge(previous: Node, data: string): (r: Node)
    ensures previous.Elem? ==> r == previous
    ensures previous.Text? ==>
              r.Elem? && r.classes == ["badge", "bg-" + StatusClass(data)] && r.title == data && TextContent(r) == previous.s
  {
    if previous.Elem? then previous
    else
      ConcatSingle(previous);
      Elem(data, ["badge", "bg-" + StatusClass(data)], [previous], map[])
  }

  function StatusBadgeDecorator<R>(): Decorator<R> {
    (previous, data, row) => StatusBadge(previous, data)
  }

  /** A rank below ten, padded to three places. */
  lemma PaddedRank(d: nat)
    requires d < 10
    ensures PadStart(NatToString(d), 3, '0') == ['0', '0', DigitChar(d)]
    ensures IsDigits(['0', '0', DigitChar(d)]) && DigitsValue(['0', '0', DigitChar(d)]) == d
  {
    var k := ['0', '0', DigitChar(d)];
    assert NatToString(d) == [DigitChar(d)];
    assert seq(2, _ => '0') == ['0', '0'];
    assert k[..2] == ['0', '0'] && k[..2][..1] == ['0'] && ['0'][..0] == [];
    assert DigitsValue(['0']) == 0;
    assert DigitsValue(['0', '0']) == 0;
  }

  /** The sort key: the status's rank, zero-padded to three digits, or "999" before an unknown status. */
  function StatusSortKey(data: string): (key: string)
    ensures data !in StatusKeys ==> key == "999" + data
    ensures data in StatusKeys ==> key == ['0', '0', DigitChar(IndexOf(StatusKeys, data))]
    ensures data in StatusKeys ==> IsDigits(key) && DigitsValue(key) == IndexOf(StatusKeys, data)
  {
    var i := IndexOf(StatusKeys, data);
    if i == -1 then "999" + data
    else
      PaddedRank(i);
      PadStart(NatToString(i), 3, '0')
  }

  lemma StatusSortKeyFailed()
    ensures StatusSortKey("Failed") == "005"
  {
    assert StatusKeys[5] == "Failed";
    assert IndexOf(StatusKeys, "Failed") == 5;
    assert DigitChar(5) == '5';
  }

  lemma StatusSortKeyUnknown()
    ensures StatusSortKey("Unknown") == "999Unknown"
  {
    assert "Unknown" !in StatusKeys;
  }

  lemma BeforePadded(x: char, y: char)
    ensures Before(['0', '0', x], ['0', '0', y]) <==> x < y
  {
    var a, b := ['0', '0', x], ['0', '0', y];
    assert a[1..] == ['0', x] && b[1..] == ['0', y];
    assert a[1..][1..] == [x] && b[1..][1..] == [y];
    assert [x][1..] == [] && [y][1..] == [];
    assert Below([], []);
    assert Below(a, b) <==> Below([x], [y]);
  }

  /** Sorting by the key sorts statuses by severity rank, and every known status
      sorts before every unknown one. */
  lemma StatusSortKeyOrder(a: string, b: string)
    ensures a in StatusKeys && b in StatusKeys ==>
              (Before(StatusSortKey(a), StatusSortKey(b)) <==> IndexOf(StatusKeys, a) < IndexOf(StatusKeys, b))
    ensures a in StatusKeys && b !in StatusKeys ==> Before(StatusSortKey(a), StatusSortKey(b))
  {
    if a in StatusKeys && b in StatusKeys {
      BeforePadded(DigitChar(IndexOf(StatusKeys, a)), DigitChar(IndexOf(StatusKeys, b)));
    } else if a in StatusKeys {
      var ka, kb := StatusSortKey(a), StatusSortKey(b);
      assert kb[0] == '9' && ka[0] == '0';
    }
  }

  /** Different statuses get different sort keys. */
  lemma StatusSortKeyInjective(a: string, b: string)
    requires a != b
    ensures StatusSortKey(a) != StatusSortKey(b)
  {
    var ka, kb := StatusSortKey(a), StatusSortKey(b);
    if a in StatusKeys && b in StatusKeys {
      var i, j := IndexOf(StatusKeys, a), IndexOf(StatusKeys, b);
      assert i != j;
      assert ka[2] == DigitChar(i) && kb[2] == DigitChar(j);
    } else if a in StatusKeys {
      assert ka[0] != kb[0];
    } else if b in StatusKeys {
      assert ka[0] != kb[0];
    } else {
      assert ka[3..] == a && kb[3..] == b;
    }
  }

  method RenderStatus<R>(translateTableCell: string -> string) returns (r: Renderer<R>)
    ensures forall data, row :: r.Render(data, "display", row) == StatusBadge(Text(translateTableCell(data)), data)
    ensures forall data, row :: r.Render(data, "sort", row) == Text(StatusSortKey(data))
    ensures forall data, row :: r.Render(data, "type", row) == Text(StatusSortKey(data))
    ensures forall data, row :: r.Render(data, "filter", row) == Text(data)
  {
    var b := new RenderBuilder<R>.Create();
    b.Decorate(TranslateDecorator(translateTableCell));
    b.Decorate(StatusBadgeDecorator());
    b.Sort((data, row) => StatusSortKey(data));
    r := b.Build();
    var d1, d2 := TranslateDecorator(translateTableCell), StatusBadgeDecorator();
    assert r.decorators == [d1, d2];
    forall data, row ensures r.Render(data, "display", row) == StatusBadge(Text(translateTableCell(data)), data) {
      FoldTwo(d1, d2, Text(data), data, row);
    }
  }

  // ---------------------------------------------------------------- selector

  /** The text of one selector badge: the text before the first '=', '=', and the text
      between the first and second '=' ("undefined" when there is no '='). */
  function PairText(item: string): string {
    var parts := Split(item, '=');
    parts[0] + "=" + (if |parts| > 1 then parts[1] else "undefined")
  }

  /** An item `k=v` with exactly one '=' shows as itself. */
  lemma PairTextExact(item: string)
    requires |Split(item, '=')| == 2
    ensures PairText(item) == item
  {
    var parts := Split(item, '=');
    assert Join(parts[1..], '=') == parts[1];
  }

  /** With a second '=', everything from it on is dropped. */
  lemma PairTextDropsTail(item: string)
    requires |Split(item, '=')| >= 3
    ensures PairText(item) == Split(item, '=')[0] + "=" + Split(item, '=')[1]
    ensures |PairText(item)| < |item|
  {
    var parts := Split(item, '=');
    assert Join(parts[1..], '=') == parts[1] + "=" + Join(parts[2..], '=');
  }

  function Pill(item: string): (badge: Node)
    ensures TextContent(badge) == PairText(item)
  {
    ConcatSingle(Text(PairText(item)));
    Elem("", ["badge", "rounded-pill", "bg-primary"], [Text(PairText(item))], map[])
  }

  function PillsText(items: seq<string>): (s: string)
    ensures ConcatText(seq(|items|, i requires 0 <= i < |items| => Pill(items[i]))) == s
    decreases |items|
  {
    var pills := seq(|items|, i requires 0 <= i < |items| => Pill(items[i]));
    if items == [] then ""
    else
      assert pills[1..] == seq(|items[1..]|, i requires 0 <= i < |items[1..]| => Pill(items[1..][i]));
      PairText(items[0]) + PillsText(items[1..])
  }

  /** Plain text `k=v,k=v` becomes a container holding one pill per comma-separated
      item, titled with the whole text; an element is kept. */
  function SelectorBadges(previous: Node): (r: Node)
    ensures previous.Elem? ==> r == previous
    ensures previous.Text? ==>
              && r.Elem? && r.title == previous.s
              && |r.children| == |Split(previous.s, ',')|
              && forall i :: 0 <= i < |r.children| ==> TextContent(r.children[i]) == PairText(Split(previous.s, ',')[i])
  {
    if previous.Elem? then previous
    else
      var items := Split(previous.s, ',');
      Elem(previous.s, [], seq(|items|, i requires 0 <= i < |items| => Pill(items[i])), map[])
  }

  /** When every item has exactly one '=', the badges spell the items out again:
      joined with ',' they give back the selector. */
  lemma SelectorBadgesRoundTrip(s: string)
    requires forall i :: 0 <= i < |Split(s, ',')| ==> |Split(Split(s, ',')[i], '=')| == 2
    ensures var r := SelectorBadges(Text(s));
            Join(seq(|r.children|, i requires 0 <= i < |r.children| => TextContent(r.children[i])), ',') == s
  {
    var items := Split(s, ',');
    var r := SelectorBadges(Text(s));
    var texts := seq(|r.children|, i requires 0 <= i < |r.children| => TextContent(r.children[i]));
    forall i | 0 <= i < |items| ensures texts[i] == items[i] {
      PairTextExact(items[i]);
    }
    assert texts == items;
  }

  lemma SplitExample()
    ensures Split("app=api,tier=backend", ',') == ["app=api", "tier=backend"]
  {
    var items := ["app=api", "tier=backend"];
    SplitJoin(items, ',');
    assert Join(items, ',') == "app=api,tier=backend";
  }

  /** A key and a value without '=' show as `key=value`. */
  lemma PairTextOfPair(key: string, value: string)
    requires '=' !in key && '=' !in value
    ensures PairText(key + "=" + value) == key + "=" + value
  {
    SplitAfterPiece(key, '=', value);
    SplitNoSep(value, '=');
    assert key + "=" + value == key + ['='] + value;
  }

  lemma PairTextExamples()
    ensures PairText("app=api") == "app=api"
    ensures PairText("tier=backend") == "tier=backend"
  {
    var app, api, tier, backend := "app", "api", "tier", "backend";
    assert '=' !in app && '=' !in api && '=' !in tier && '=' !in backend;
    PairTextOfPair(app, api);
    assert app + "=" + api == "app=api";
    PairTextOfPair(tier, backend);
    assert tier + "=" + backend == "tier=backend";
  }

  lemma SelectorExample()
    ensures var r := SelectorBadges(Text("app=api,tier=backend"));
            r.title == "app=api,tier=backend" && |r.children| == 2
            && TextContent(r.children[0]) == "app=api" && TextContent(r.children[1]) == "tier=backend"
  {
    SplitExample();
    PairTextExamples();
  }

  function SelectorDecorator<R>(): Decorator<R> {
    (previous, data, row) => SelectorBadges(previous)
  }

  method RenderSelector<R>() returns (r: Renderer<R>)
    ensures forall data, row :: r.Render(data, "display", row) == Ellipsis(SelectorBadges(Text(data)))
    ensures forall data, row :: r.Render(data, "sort", row) == Text(data) && r.Render(data, "filter", row) == Text(data)
  {
    var b := new RenderBuilder<R>.Create();
    b.Decorate(SelectorDecorator());
    b.Decorate(EllipsisDecorator());
    r := b.Build();
    var d1, d2 := SelectorDecorator(), EllipsisDecorator();
    assert r.decorators == [d1, d2];
    forall data, row ensures r.Render(data, "display", row) == Ellipsis(SelectorBadges(Text(data))) {
      FoldTwo(d1, d2, Text(data), data, row);
    }
  }
}
