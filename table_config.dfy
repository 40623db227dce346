/** Per-resource table overrides. Only pods have one: two hidden columns, a preferred column
    order and an HTML badge for the Status column. */
module TableConfig {
  import opened Wrappers
  import Render

  const PodsKey: string := "/v1::pods"

  /** The pods Status map (it has no entry for "OOMKilled"). */
  const PodStatusMap: map<string, string> := map[
    "Running" := "success",
    "Pending" := "warning",
    "Succeeded" := "info",
    "Failed" := "danger",
    "Completed" := "info",
    "CrashLoopBackOff" := "danger"
  ]

  /** A column renderer of the table library that looks only at the cell's data. */
  type CellHtml = string -> string

  datatype Override = Override(hiddenColumns: seq<string>, columnOrder: seq<string>, render: map<string, CellHtml>)

  const BadgeOpen: string := "<span class=\"badge bg-"
  const BadgeClose: string := "</span>"

  /** `statusMap[data] ?? "secondary"`. */
  function PodStatusClass(data: string): (cls: string)
    ensures data in PodStatusMap ==> cls == PodStatusMap[data]
    ensures data !in PodStatusMap ==> cls == "secondary"
    ensures '"' !in cls
  {
    if data in PodStatusMap then PodStatusMap[data] else "secondary"
  }

  /** `<span class="badge bg-CLASS">DATA</span>`. */
  function BadgeHtml(cls: string, data: string): string {
    BadgeOpen + cls + "\">" + data + BadgeClose
  }

  /** The Status renderer: a badge span whose content is the raw data, not escaped. */
  function PodStatusHtml(data: string): (html: string)
    ensures |html| == |BadgeOpen| + |PodStatusClass(data)| + 2 + |data| + |BadgeClose|
    ensures html[..|BadgeOpen|] == BadgeOpen
    ensures html[|html| - |BadgeClose|..] == BadgeClose
    ensures html[|html| - |BadgeClose| - |data|..|html| - |BadgeClose|] == data
  {
    BadgeHtml(PodStatusClass(data), data)
  }

  const Overrides: map<string, Override> := map[
    PodsKey := Override(["Nominated Node", "Readiness Gates"], ["Status", "Ready"], map["Status" := PodStatusHtml])
  ]

  /** The first position of `c` in `s`, or `|s|`. */
  function CharIndex(s: string, c: char): (i: nat)
    ensures i <= |s|
    ensures i < |s| ==> s[i] == c
    ensures c !in s[..i]
  {
    if s == [] then 0
    else if s[0] == c then 0
    else
      var j := CharIndex(s[1..], c);
      assert s[..j + 1] == [s[0]] + s[1..][..j];
      j + 1
  }

  /** Reads `open + CLASS + "\">" + CONTENT + close` back into its class and its content. */
  function ParseTag(html: string, open: string, close: string): Option<(string, string)> {
    if |html| < |open| || html[..|open|] != open then None
    else
      var rest := html[|open|..];
      var q := CharIndex(rest, '"');
      if q + 2 > |rest| || rest[q..q + 2] != "\">" then None
      else
        var body := rest[q + 2..];
        if |body| < |close| || body[|body| - |close|..] != close then None
        else Some((rest[..q], body[..|body| - |close|]))
  }

  function ParseBadge(html: string): Option<(string, string)> {
    ParseTag(html, BadgeOpen, BadgeClose)
  }

  lemma {:induction false} CharIndexOfConcat(a: string, b: string, c: char)
    requires c !in a
    requires |b| > 0 && b[0] == c
    ensures CharIndex(a + b, c) == |a|
  {
    if a != [] {
      assert (a + b)[1..] == a[1..] + b;
      CharIndexOfConcat(a[1..], b, c);
    }
  }

  lemma TagRoundTrip(open: string, cls: string, data: string, close: string)
    requires '"' !in cls
    ensures ParseTag(open + cls + "\">" + data + close, open, close) == Some((cls, data))
  {
    var tail := "\">" + data + close;
    var rest := cls + tail;
    var html := open + cls + "\">" + data + close;
    assert html == open + rest;
    assert html[..|open|] == open;
    assert html[|open|..] == rest;
    CharIndexOfConcat(cls, tail, '"');
    assert rest[..|cls|] == cls;
    assert rest[|cls|..|cls| + 2] == "\">";
    var body := data + close;
    assert rest[|cls| + 2..] == body;
    assert body[|body| - |close|..] == close;
    assert body[..|body| - |close|] == data;
  }

  /** The badge keeps both its class and the raw data recoverable, whatever the data holds. */
  lemma BadgeRoundTrip(data: string)
    ensures ParseBadge(PodStatusHtml(data)) == Some((PodStatusClass(data), data))
  {
    TagRoundTrip(BadgeOpen, PodStatusClass(data), data, BadgeClose);
  }

  lemma RunningExample()
    ensures PodStatusHtml("Running") == "<span class=\"badge bg-success\">Running</span>"
  {
  }

  lemma MapMatchesRendererTable()
    ensures forall i :: 0 <= i < |Render.StatusKeys| && i != 4 ==>
              Render.StatusKeys[i] in PodStatusMap && PodStatusMap[Render.StatusKeys[i]] == Render.StatusClasses[i]
    ensures forall k :: k in PodStatusMap ==> k in Render.StatusKeys
    ensures "OOMKilled" !in PodStatusMap
  {
  }

  lemma RendererClassOf(data: string)
    requires data in Render.StatusKeys
    ensures var i := Render.IndexOf(Render.StatusKeys, data);
            0 <= i < |Render.StatusKeys| && Render.StatusKeys[i] == data && Render.StatusClass(data) == Render.StatusClasses[i]
  {
  }

  /** The pods badge colours statuses as the status renderer does, except "OOMKilled",
      which is missing from this map and so falls back to "secondary". */
  lemma ClassesAgreeWithRenderer(data: string)
    ensures data != "OOMKilled" ==> PodStatusClass(data) == Render.StatusClass(data)
    ensures PodStatusClass("OOMKilled") == "secondary" != Render.StatusClass("OOMKilled")
  {
    MapMatchesRendererTable();
    RendererClassOf("OOMKilled");
    assert Render.StatusKeys[4] == "OOMKilled";
    if data in Render.StatusKeys && data != "OOMKilled" {
      RendererClassOf(data);
    }
  }
}
