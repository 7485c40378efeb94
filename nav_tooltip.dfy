/**
 * The NAV chart's tooltip: which hovered items it lists, with which label
 * and which value format, and whether it shows a date header. At the
 * junction between reported and near-casting data both a metric and its
 * "NC " twin are hovered; the tooltip then lists only the reported one.
 */
module NavTooltip {
  import opened Wrappers

  /** The reported metric keys. */
  const Keys: seq<string> := ["NAV", "jCurve", "Gross IRR", "Net IRR", "MOIC"]

  const NCPrefix: string := "NC "

  /** `keys.map(key => "NC " + key)`. */
  function PrefixAll(keys: seq<string>): (r: seq<string>)
    ensures |r| == |keys|
  {
    if keys == [] then [] else [NCPrefix + keys[0]] + PrefixAll(keys[1..])
  }

  /** The near-casting metric keys. */
  const NCKeys: seq<string> := PrefixAll(Keys)

  lemma {:induction false} PrefixAllAt(keys: seq<string>, i: int)
    requires 0 <= i < |keys|
    ensures PrefixAll(keys)[i] == NCPrefix + keys[i]
  {
    if i > 0 {
      PrefixAllAt(keys[1..], i - 1);
    }
  }

  /** `NCKeys` is `Keys` with "NC " in front of each key, in the same order. */
  lemma NCKeysArePrefixedKeys()
    ensures |NCKeys| == |Keys|
    ensures forall i :: 0 <= i < |Keys| ==> NCKeys[i] == NCPrefix + Keys[i]
  {
    forall i | 0 <= i < |Keys| ensures NCKeys[i] == NCPrefix + Keys[i] {
      PrefixAllAt(Keys, i);
    }
  }

  /** No key is in both tables: the third character of a near-casting key is a space. */
  lemma KeyTablesAreDisjoint()
    ensures forall k :: k in Keys ==> k !in NCKeys
  {
    NCKeysArePrefixedKeys();
    forall k | k in Keys ensures k !in NCKeys {
      forall j | 0 <= j < |NCKeys| ensures NCKeys[j] != k {
        assert NCKeys[j][2] == ' ';
        assert k[2] != ' ';
      }
    }
  }

  // ---------------------------------------------------------------- substrings

  /** `pat` occurs in `s` at position `j`. */
  predicate OccursAt(s: string, pat: string, j: int) {
    0 <= j && j + |pat| <= |s| && s[j..j + |pat|] == pat
  }

  /** `s.indexOf(pat)`: the first position where `pat` occurs, if any. */
  function IndexOf(s: string, pat: string): (r: Option<nat>)
    ensures r.Some? ==> OccursAt(s, pat, r.value)
    ensures r.Some? ==> forall j :: 0 <= j < r.value ==> !OccursAt(s, pat, j)
    ensures r.None? ==> forall j :: 0 <= j ==> !OccursAt(s, pat, j)
    decreases |s|
  {
    if |s| < |pat| then None
    else if s[..|pat|] == pat then Some(0)
    else
      match IndexOf(s[1..], pat)
      case None =>
        assert forall j :: 1 <= j ==> OccursAt(s, pat, j) ==> OccursAt(s[1..], pat, j - 1);
        None
      case Some(i) =>
        assert forall j :: 1 <= j ==> OccursAt(s, pat, j) ==> OccursAt(s[1..], pat, j - 1);
        assert s[i + 1..i + 1 + |pat|] == s[1..][i..i + |pat|];
        Some(i + 1)
  }

  /** `s.includes(sub)`: `sub` occurs somewhere in `s`. */
  function Contains(s: string, sub: string): (b: bool)
    ensures b <==> exists j :: OccursAt(s, sub, j)
  {
    IndexOf(s, sub).Some?
  }

  /** `s.replace(pat, "")`: the first occurrence of `pat` removed. */
  function RemoveFirst(s: string, pat: string): (r: string)
    requires pat != []
    ensures |r| == if Contains(s, pat) then |s| - |pat| else |s|
    decreases |s|
  {
    if |s| < |pat| then s
    else if s[..|pat|] == pat then s[|pat|..]
    else [s[0]] + RemoveFirst(s[1..], pat)
  }

  /** Removing the first occurrence cuts `s` around the position `IndexOf` finds. */
  lemma {:induction false} RemoveFirstCutsAtIndexOf(s: string, pat: string)
    requires pat != []
    ensures IndexOf(s, pat).None? ==> RemoveFirst(s, pat) == s
    ensures IndexOf(s, pat).Some? ==>
      var i := IndexOf(s, pat).value;
      RemoveFirst(s, pat) == s[..i] + s[i + |pat|..]
    decreases |s|
  {
    if |s| < |pat| || s[..|pat|] == pat {
    } else {
      RemoveFirstCutsAtIndexOf(s[1..], pat);
      match IndexOf(s[1..], pat)
      case None =>
      case Some(i) =>
        assert s[..i + 1] == [s[0]] + s[1..][..i];
        assert s[i + 1 + |pat|..] == s[1..][i + |pat|..];
    }
  }

  /** The label shown for a metric item: its name with the first "NC " removed. */
  function StripNC(name: string): (shown: string)
    ensures !Contains(name, NCPrefix) ==> shown == name
    ensures Contains(name, NCPrefix) ==> |shown| == |name| - |NCPrefix|
  {
    RemoveFirstCutsAtIndexOf(name, NCPrefix);
    RemoveFirst(name, NCPrefix)
  }

  /** A near-casting name loses its prefix; a name without "NC " is shown as it is. */
  lemma StripNCProperties(key: string, name: string)
    ensures StripNC(NCPrefix + key) == key
    ensures !Contains(name, NCPrefix) ==> StripNC(name) == name
  {
    assert (NCPrefix + key)[..|NCPrefix|] == NCPrefix;
    RemoveFirstCutsAtIndexOf(name, NCPrefix);
  }

  /** Every near-casting key is shown as its reported key. */
  lemma StripNCOfNCKeys()
    ensures forall i :: 0 <= i < |NCKeys| ==> StripNC(NCKeys[i]) == Keys[i]
  {
    NCKeysArePrefixedKeys();
    forall i | 0 <= i < |NCKeys| ensures StripNC(NCKeys[i]) == Keys[i] {
      StripNCProperties(Keys[i], "");
    }
  }

  // ---------------------------------------------------------------- payload

  /** One hovered series: its data key (possibly missing), name, value and the point's date. */
  datatype PayloadItem = PayloadItem(dataKey: Option<string>, name: string, value: real, x: int)

  /** `table.includes(item.dataKey)`; a missing key is in no table. */
  predicate KeyIn(item: PayloadItem, table: seq<string>)
    ensures KeyIn(item, table) <==> item.dataKey.Some? && exists k :: 0 <= k < |table| && table[k] == item.dataKey.value
  {
    item.dataKey.Some? && item.dataKey.value in table
  }

  /** `!!payload.find(({dataKey}) => table.includes(dataKey))`: some item's data key is in the table. */
  function FindKeyIn(payload: seq<PayloadItem>, table: seq<string>): (b: bool)
    ensures b <==> exists i :: 0 <= i < |payload| && KeyIn(payload[i], table)
  {
    if payload == [] then false
    else
      var found := KeyIn(payload[0], table) || FindKeyIn(payload[1..], table);
      assert forall i :: 0 < i < |payload| ==> payload[i] == payload[1..][i - 1];
      assert FindKeyIn(payload[1..], table) ==> exists i :: 0 < i < |payload| && KeyIn(payload[i], table) by {
        if FindKeyIn(payload[1..], table) {
          var i :| 0 <= i < |payload[1..]| && KeyIn(payload[1..][i], table);
          assert KeyIn(payload[i + 1], table);
        }
      }
      found
  }

  /** `isLastReportedPoint`: a near-casting item and a reported item are hovered together. */
  function IsLastReportedPoint(payload: seq<PayloadItem>): (b: bool)
    ensures b <==>
      (exists i :: 0 <= i < |payload| && KeyIn(payload[i], NCKeys))
      && (exists j :: 0 <= j < |payload| && KeyIn(payload[j], Keys))
  {
    FindKeyIn(payload, NCKeys) && FindKeyIn(payload, Keys)
  }

  /** `items.filter(item => !(junction && NCKeys.includes(item.dataKey)))`. */
  function Keep(items: seq<PayloadItem>, junction: bool): (r: seq<PayloadItem>)
    ensures |r| <= |items|
  {
    if items == [] then []
    else if !(junction && KeyIn(items[0], NCKeys)) then [items[0]] + Keep(items[1..], junction)
    else Keep(items[1..], junction)
  }

  /** The items the tooltip lists: never more than were hovered, and only hovered ones. */
  function FilterPayload(payload: seq<PayloadItem>): (r: seq<PayloadItem>)
    ensures |r| <= |payload|
    ensures forall x :: x in r ==> x in payload
  {
    KeepOnlyHovered(payload, IsLastReportedPoint(payload));
    Keep(payload, IsLastReportedPoint(payload))
  }

  lemma {:induction false} KeepOnlyHovered(items: seq<PayloadItem>, junction: bool)
    ensures forall x :: x in Keep(items, junction) ==> x in items
  {
    if items != [] {
      KeepOnlyHovered(items[1..], junction);
    }
  }

  /** The number of near-casting items. */
  function CountNC(items: seq<PayloadItem>): (n: nat)
    ensures n <= |items|
  {
    if items == [] then 0
    else (if KeyIn(items[0], NCKeys) then 1 else 0) + CountNC(items[1..])
  }

  /** `a` is `b` with some items left out, the rest in their original order. */
  ghost predicate IsSubsequence(a: seq<PayloadItem>, b: seq<PayloadItem>)
    decreases |b|
  {
    if a == [] then true
    else if b == [] then false
    else if a[0] == b[0] then IsSubsequence(a[1..], b[1..])
    else IsSubsequence(a, b[1..])
  }

  lemma {:induction false} KeepWithoutJunction(items: seq<PayloadItem>)
    ensures Keep(items, false) == items
  {
    if items != [] {
      KeepWithoutJunction(items[1..]);
      assert items == [items[0]] + items[1..];
    }
  }

  lemma {:induction false} KeepAtJunction(items: seq<PayloadItem>)
    ensures forall x :: x in Keep(items, true) ==> !KeyIn(x, NCKeys)
    ensures forall x :: x in items && !KeyIn(x, NCKeys) ==> x in Keep(items, true)
    ensures IsSubsequence(Keep(items, true), items)
    ensures |Keep(items, true)| == |items| - CountNC(items)
  {
    if items != [] {
      KeepAtJunction(items[1..]);
      forall x | x in items && !KeyIn(x, NCKeys) ensures x in Keep(items, true) {
        if x != items[0] {
          assert x in items[1..];
        }
      }
    }
  }

  /** Away from the junction the tooltip lists every hovered item, in order. */
  lemma FilterKeepsAllAwayFromJunction(payload: seq<PayloadItem>)
    requires !IsLastReportedPoint(payload)
    ensures FilterPayload(payload) == payload
  {
    KeepWithoutJunction(payload);
  }

  /**
   * At the junction the tooltip lists no near-casting item, keeps every other
   * item in its original order, and still lists a reported item.
   */
  lemma FilterDropsNCAtJunction(payload: seq<PayloadItem>)
    requires IsLastReportedPoint(payload)
    ensures forall x :: x in FilterPayload(payload) ==> !KeyIn(x, NCKeys)
    ensures forall x :: x in payload && !KeyIn(x, NCKeys) ==> x in FilterPayload(payload)
    ensures IsSubsequence(FilterPayload(payload), payload)
    ensures |FilterPayload(payload)| == |payload| - CountNC(payload)
    ensures exists x :: x in FilterPayload(payload) && KeyIn(x, Keys)
  {
    KeepAtJunction(payload);
    KeyTablesAreDisjoint();
    var j :| 0 <= j < |payload| && KeyIn(payload[j], Keys);
    assert payload[j] in FilterPayload(payload);
  }

  // ---------------------------------------------------------------- rendering choices

  /** `item.dataKey?.toString().includes('benchmarking')`; an item without a data key is not one. */
  predicate IsBenchmarkItem(item: PayloadItem)
    ensures IsBenchmarkItem(item) <==> item.dataKey.Some? && exists j :: OccursAt(item.dataKey.value, "benchmarking", j)
  {
    item.dataKey.Some? && Contains(item.dataKey.value, "benchmarking")
  }

  /** The value format of a metric item: two decimals for `MOIC`, the tooltip format otherwise. */
  function KpiFormat(name: string, tooltipFormat: Option<string>): (f: Option<string>)
    ensures name == "MOIC" ==> f == Some(".2f")
    ensures name != "MOIC" ==> f == tooltipFormat
  {
    if name != "MOIC" then tooltipFormat else Some(".2f")
  }

  /** The value format of a benchmark item: none for `benchmarking_moic`, the tooltip format otherwise. */
  function BenchmarkFormat(name: string, tooltipFormat: Option<string>): (f: Option<string>)
    ensures name == "benchmarking_moic" ==> f.None?
    ensures name != "benchmarking_moic" ==> f == tooltipFormat
  {
    if name != "benchmarking_moic" then tooltipFormat else None
  }

  /** The two-decimal rule matches the name exactly: the near-casting MOIC item keeps the tooltip format. */
  lemma NearCastingMoicUsesTooltipFormat(tooltipFormat: Option<string>)
    ensures KpiFormat(NCPrefix + "MOIC", tooltipFormat) == tooltipFormat
  {
    assert (NCPrefix + "MOIC")[0] != "MOIC"[0];
  }

  /** What the date header shows. */
  datatype Header = PointLabel | PointField(field: string) | PointDate

  /** One listed row: a metric with its label, or a benchmark with its date and KPI/source caption. */
  datatype Row =
    | KpiRow(text: string, value: real, format: Option<string>)
    | BenchmarkRow(date: int, text: string, value: real, format: Option<string>)

  datatype TooltipView = TooltipView(header: Option<Header>, rows: seq<Row>)

  /** The date header: omitted when the first item is a benchmark item. */
  function HeaderOf(first: PayloadItem, isBenchmarking: bool, dateLabel: Option<string>): (h: Option<Header>)
    ensures h.None? <==> IsBenchmarkItem(first)
    ensures h.Some? && isBenchmarking ==> h.value == PointLabel
    ensures h.Some? && !isBenchmarking ==>
      h.value == if dateLabel.Some? && dateLabel.value != "" then PointField(dateLabel.value) else PointDate
  {
    if IsBenchmarkItem(first) then None
    else if isBenchmarking then Some(PointLabel)
    else if dateLabel.Some? && dateLabel.value != "" then Some(PointField(dateLabel.value))
    else Some(PointDate)
  }

  /** The caption of a benchmark row, `${activeKpi}, ${activeSource} :`. */
  function BenchmarkCaption(activeKpi: Option<string>, activeSource: Option<string>): (c: string)
    ensures |c| == |TemplateText(activeKpi)| + 2 + |TemplateText(activeSource)| + 2
    ensures c[..|TemplateText(activeKpi)|] == TemplateText(activeKpi)
    ensures c[|TemplateText(activeKpi)|..|TemplateText(activeKpi)| + 2] == ", "
    ensures c[|TemplateText(activeKpi)| + 2..|c| - 2] == TemplateText(activeSource)
    ensures c[|c| - 2..] == " :"
  {
    var c := TemplateText(activeKpi) + ", " + TemplateText(activeSource) + " :";
    assert c[|TemplateText(activeKpi)| + 2..|c| - 2] == TemplateText(activeSource);
    c
  }

  function RowOf(item: PayloadItem, tooltipFormat: Option<string>,
                 activeKpi: Option<string>, activeSource: Option<string>): (row: Row)
    ensures row.KpiRow? <==> !IsBenchmarkItem(item)
    ensures row.KpiRow? ==> row.text == StripNC(item.name) && row.format == KpiFormat(item.name, tooltipFormat)
    ensures row.BenchmarkRow? ==> row.date == item.x && row.format == BenchmarkFormat(item.name, tooltipFormat)
    ensures row.BenchmarkRow? ==> row.text == BenchmarkCaption(activeKpi, activeSource)
    ensures row.value == item.value
  {
    if !IsBenchmarkItem(item) then KpiRow(StripNC(item.name), item.value, KpiFormat(item.name, tooltipFormat))
    else BenchmarkRow(item.x, BenchmarkCaption(activeKpi, activeSource), item.value,
                      BenchmarkFormat(item.name, tooltipFormat))
  }

  /**
   * The tooltip: nothing unless it is active with a non-empty payload;
   * otherwise the header and one row per listed item.
   */
  function Tooltip(active: bool, payload: Option<seq<PayloadItem>>, tooltipFormat: Option<string>,
                   isBenchmarking: bool, activeKpi: Option<string>, activeSource: Option<string>,
                   dateLabel: Option<string>): (v: Option<TooltipView>)
    ensures v.Some? <==> active && payload.Some? && |payload.value| > 0
    ensures v.Some? ==> (v.value.header.None? <==> IsBenchmarkItem(payload.value[0]))
    ensures v.Some? ==> v.value.header == HeaderOf(payload.value[0], isBenchmarking, dateLabel)
    ensures v.Some? ==> |v.value.rows| == |FilterPayload(payload.value)|
    ensures v.Some? ==> forall i :: 0 <= i < |v.value.rows| ==>
      v.value.rows[i] == RowOf(FilterPayload(payload.value)[i], tooltipFormat, activeKpi, activeSource)
  {
    if active && payload.Some? && |payload.value| > 0 then
      var items := FilterPayload(payload.value);
      Some(TooltipView(HeaderOf(payload.value[0], isBenchmarking, dateLabel),
                       seq(|items|, i requires 0 <= i < |items| => RowOf(items[i], tooltipFormat, activeKpi, activeSource))))
    else None
  }
}
