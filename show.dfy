/**
 * The pieces of the `Show` rendering engine that do not depend on what is
 * shown: output formats, display parameters, tables as rows of cells with the
 * column removal and settings `output` applies, the `name` helper and the two
 * "age" formatters (the chrono one of the older engine and the jiff one of
 * the newer engine), both modelled after Kubernetes' `HumanDuration`.
 */
module Show {
  import opened Wrappers
  import opened Strings

  /** `OutputFormat`, the value of `-o`; the default is `Normal`. */
  datatype OutputFormat =
    | Normal | Json | Yaml | Name
    | GoTemplate | GoTemplateFile | Template | TemplateFile
    | JsonPath | JsonPathAsJson | JsonPathFile
    | CustomColumns | CustomColumnsFile
    | Wide
  {
    /** The formats rendered as a table. */
    predicate IsTable() { this == Normal || this == Wide }

    /** `is_wide` */
    predicate IsWide() { this == Wide }

    /** The template-style formats, which every `Show` leaves unimplemented. */
    predicate IsTemplate() { !IsTable() && this != Json && this != Yaml && this != Name }
  }

  /** `ShowParams`: `--show-kind`, `--show-labels`, `--show-managed-fields`. */
  datatype ShowParams = ShowParams(showKind: bool, showLabels: bool, showManagedFields: bool)

  // ---------------------------------------------------------------------------
  // Tables

  type Row = seq<string>

  /** A table as its rows; the first row is the header. */
  type Rows = seq<Row>

  const NamespaceColumn := "NAMESPACE"

  /** The cells of `row` whose column is not headed `name` in `header`. */
  function KeepCells(row: Row, header: Row, name: string): (r: Row)
    ensures |r| <= |row|
    decreases |row|
  {
    if row == [] then []
    else
      var rest := KeepCells(row[1..], if header == [] then [] else header[1..], name);
      if header != [] && header[0] == name then rest else [row[0]] + rest
  }

  /** The cells of a header that are not `name`, in order. */
  function Without(header: Row, name: string): (r: Row)
    ensures name !in r
    ensures forall c :: c in header && c != name ==> c in r
    ensures forall c :: c in r ==> c in header
  {
    if header == [] then []
    else if header[0] == name then Without(header[1..], name)
    else [header[0]] + Without(header[1..], name)
  }

  /** `Remove::column(ByColumnName::new(name))`: every column whose header cell is `name` is dropped. */
  function RemoveColumn(rows: Rows, name: string): (r: Rows)
    ensures |r| == |rows|
  {
    if rows == [] then []
    else seq(|rows|, i requires 0 <= i < |rows| => KeepCells(rows[i], rows[0], name))
  }

  lemma {:induction false} KeepHeaderCells(header: Row, name: string)
    ensures KeepCells(header, header, name) == Without(header, name)
  {
    if header != [] {
      KeepHeaderCells(header[1..], name);
    }
  }

  lemma {:induction false} KeepAllCells(row: Row, header: Row, name: string)
    requires name !in header
    ensures KeepCells(row, header, name) == row
  {
    if row != [] {
      KeepAllCells(row[1..], if header == [] then [] else header[1..], name);
      assert [row[0]] + row[1..] == row;
    }
  }

  lemma {:induction false} KeepCellsAligned(row: Row, header: Row, name: string)
    requires |row| == |header|
    ensures |KeepCells(row, header, name)| == |KeepCells(header, header, name)|
  {
    if row != [] {
      KeepCellsAligned(row[1..], header[1..], name);
    }
  }

  /**
   * After the removal the header no longer holds `name` and keeps every
   * other cell in order; a row as long as the header stays as long as the
   * new header.
   */
  lemma RemoveColumnHeader(rows: Rows, name: string)
    requires rows != []
    ensures RemoveColumn(rows, name)[0] == Without(rows[0], name)
    ensures name !in RemoveColumn(rows, name)[0]
    ensures forall i :: 0 <= i < |rows| && |rows[i]| == |rows[0]| ==>
              |RemoveColumn(rows, name)[i]| == |RemoveColumn(rows, name)[0]|
  {
    KeepHeaderCells(rows[0], name);
    forall i | 0 <= i < |rows| && |rows[i]| == |rows[0]|
      ensures |RemoveColumn(rows, name)[i]| == |RemoveColumn(rows, name)[0]|
    {
      KeepCellsAligned(rows[i], rows[0], name);
    }
  }

  /** A table without such a column is left as it is. */
  lemma RemoveAbsentColumn(rows: Rows, name: string)
    requires rows == [] || name !in rows[0]
    ensures RemoveColumn(rows, name) == rows
  {
    if rows != [] {
      forall i | 0 <= i < |rows| ensures RemoveColumn(rows, name)[i] == rows[i] {
        KeepAllCells(rows[i], rows[0], name);
      }
    }
  }

  /** The border style of a table: tabled's default ASCII frame, or none. */
  datatype Style = Ascii | Blank

  /** Cell padding, in characters (left and right) and lines (top and bottom). */
  datatype Padding = Padding(left: nat, right: nat, top: nat, bottom: nat)

  /** tabled's defaults: one space on either side of a cell. */
  const DefaultPadding := Padding(1, 1, 0, 0)

  datatype TableSettings = TableSettings(style: Style, padding: Padding)

  /** `table_settings`: no borders, no left padding and two spaces to the right of each cell. */
  function CurrentTableSettings(): (s: TableSettings)
    ensures s.style == Blank && s.padding.left == 0 && s.padding.right == 2
    ensures s.padding.top == 0 && s.padding.bottom == 0
  {
    TableSettings(Blank, Padding(0, 2, 0, 0))
  }

  /**
   * A `tabled::Table` under construction: its cells and the settings applied
   * to it so far. Laying it out as text is not part of this model.
   */
  class Table {
    var rows: Rows
    var style: Style
    var padding: Padding

    /** `Builder::from_iter(rows).build()` */
    constructor (rows: Rows)
      ensures this.rows == rows && style == Ascii && padding == DefaultPadding
    {
      this.rows := rows;
      style := Ascii;
      padding := DefaultPadding;
    }

    /** `with(Style::…)`: only the style changes. */
    method WithStyle(s: Style)
      modifies this
      ensures style == s && rows == old(rows) && padding == old(padding)
    {
      style := s;
    }

    /** `with(settings)`: style and padding are replaced, the cells are kept. */
    method WithSettings(settings: TableSettings)
      modifies this
      ensures style == settings.style && padding == settings.padding && rows == old(rows)
    {
      style := settings.style;
      padding := settings.padding;
    }

    /** `with(Remove::column(ByColumnName::new(name)))`: only the cells change. */
    method RemoveColumnNamed(name: string)
      modifies this
      ensures rows == RemoveColumn(old(rows), name)
      ensures style == old(style) && padding == old(padding)
    {
      rows := RemoveColumn(rows, name);
    }
  }

  // ---------------------------------------------------------------------------
  // The `name` helper

  /** `name`: the object's name, prefixed by its lower-cased kind and '/' when `show_kind` is set. */
  function NameOf(kind: string, name: string, params: ShowParams): (r: string)
    ensures !params.showKind ==> r == name
    ensures params.showKind ==> |r| == |kind| + 1 + |name| && EndsWith(r, name)
  {
    if params.showKind then ToLower(kind) + "/" + name else name
  }

  /** With the kind shown the text splits back, at its first '/', into the lower-cased kind and the name. */
  lemma NameOfSplits(kind: string, name: string, params: ShowParams)
    requires params.showKind && '/' !in kind
    ensures SplitOnce(NameOf(kind, name, params), '/') == Some((ToLower(kind), name))
  {
    var lower := ToLower(kind);
    assert '/' !in lower by {
      forall i | 0 <= i < |lower| ensures lower[i] != '/' {
        assert kind[i] != '/';
      }
    }
    assert NameOf(kind, name, params) == lower + ['/'] + name;
    SplitOnceUnique(lower, name, '/');
  }

  // ---------------------------------------------------------------------------
  // Ages

  /** Integer division truncating toward zero, as Rust's `/` and chrono's `num_*` do. */
  function Quot(a: int, b: int): int
    requires b > 0
  {
    if a >= 0 then a / b else -((-a) / b)
  }

  /** The remainder that goes with `Quot`, as Rust's `%`: it has the sign of `a`. */
  function Rem(a: int, b: int): int
    requires b > 0
  {
    a - b * Quot(a, b)
  }

  /**
   * Kubernetes' `duration.HumanDuration` over whole seconds, the printer both
   * formatters mimic: a reference for them, not a part of the client.
   */
  function KubeHumanDuration(seconds: int): string {
    if seconds < -1 then "<invalid>"
    else if seconds < 0 then "0s"
    else if seconds < 120 then NatToString(seconds) + "s"
    else
      var minutes := seconds / 60;
      var hours := seconds / 3600;
      if minutes < 10 then
        if seconds % 60 == 0 then NatToString(minutes) + "m" else NatToString(minutes) + "m" + NatToString(seconds % 60) + "s"
      else if minutes < 180 then NatToString(minutes) + "m"
      else if hours < 8 then
        if minutes % 60 == 0 then NatToString(hours) + "h" else NatToString(hours) + "h" + NatToString(minutes % 60) + "m"
      else if hours < 48 then NatToString(hours) + "h"
      else if hours < 24 * 8 then
        if hours % 24 == 0 then NatToString(hours / 24) + "d" else NatToString(hours / 24) + "d" + NatToString(hours % 24) + "h"
      else if hours < 24 * 365 * 2 then NatToString(hours / 24) + "d"
      else if hours < 24 * 365 * 8 then
        var years := hours / 24 / 365;
        var days := (hours / 24) % 365;
        if days == 0 then NatToString(years) + "y" else NatToString(years) + "y" + NatToString(days) + "d"
      else NatToString(hours / 24 / 365) + "y"
  }

  /**
   * `human_time` of the older engine, over a chrono duration of whole
   * seconds. It has no branch for ten minutes up to three hours, so that range
   * renders as hours and minutes ("0h10m"), and -1 s renders as "-1s".
   */
  function HumanTime(delta: int): string {
    var days := Quot(delta, 86400);
    var hours := Quot(delta, 3600);
    var seconds := delta;
    var minutes := Quot(delta, 60);
    if seconds < -1 then "<invalid>"
    else if seconds == 0 then "0s"
    else if seconds < 60 * 2 then IntToString(seconds) + "s"
    else if minutes < 10 then
      var seconds := Rem(seconds, 60);
      if seconds == 0 then IntToString(minutes) + "m" else IntToString(minutes) + "m" + IntToString(seconds) + "s"
    else if hours < 8 then
      var minutes := Rem(minutes, 60);
      if minutes == 0 then IntToString(hours) + "h" else IntToString(hours) + "h" + IntToString(minutes) + "m"
    else if hours < 48 then IntToString(hours) + "h"
    else if days < 8 then
      var hours := Rem(hours, 24);
      if hours == 0 then IntToString(days) + "d" else IntToString(days) + "d" + IntToString(hours) + "h"
    else if days < 2 * 365 then IntToString(days) + "d"
    else if days < 8 * 365 then
      var years := Quot(days, 365);
      var days := Rem(days, 365);
      if days == 0 then IntToString(years) + "y" else IntToString(years) + "y" + IntToString(days) + "d"
    else IntToString(Quot(days, 365)) + "y"
  }

  /** The boundaries of the ladder. */
  lemma HumanTimeBoundaries()
    ensures HumanTime(-2) == "<invalid>"
    ensures HumanTime(0) == "0s"
    ensures HumanTime(119) == "119s"
    ensures HumanTime(120) == "2m"
    ensures HumanTime(28799) == "7h59m"
    ensures HumanTime(28800) == "8h"
  {
  }

  /** Ten minutes render as "0h10m", where Kubernetes prints "10m". */
  lemma HumanTimeTenMinutes()
    ensures HumanTime(600) == "0h10m"
    ensures KubeHumanDuration(600) == "10m"
  {
    assert Quot(600, 60) == 10 && Quot(600, 3600) == 0 && Rem(10, 60) == 10;
    assert NatToString(10) == "10" && NatToString(0) == "0";
  }

  /** One second in the future renders as "-1s", where Kubernetes prints "0s". */
  lemma HumanTimeMinusOne()
    ensures HumanTime(-1) == "-1s"
    ensures KubeHumanDuration(-1) == "0s"
  {
  }

  lemma NatIntToString(n: nat)
    ensures IntToString(n) == NatToString(n)
  {
  }

  /** The older formatter agrees with Kubernetes everywhere except at -1 s and from ten minutes up to three hours. */
  lemma HumanTimeAgrees(s: int)
    requires s != -1 && !(600 <= s < 10800)
    ensures HumanTime(s) == KubeHumanDuration(s)
  {
    if s >= 120 {
      assert Quot(s, 60) == s / 60 && Quot(s, 3600) == s / 3600 && Quot(s, 86400) == s / 86400;
      assert s / 86400 == s / 3600 / 24;
      if s < 600 {
        assert Rem(s, 60) == s % 60;
      } else if s / 3600 < 8 {
        assert Rem(s / 60, 60) == (s / 60) % 60;
      } else if s / 3600 < 48 {
      } else if s / 86400 < 8 {
        assert Rem(s / 3600, 24) == (s / 3600) % 24;
      } else if s / 86400 < 2 * 365 {
      } else {
        assert Quot(s / 86400, 365) == s / 86400 / 365;
        assert Rem(s / 86400, 365) == (s / 86400) % 365;
      }
    }
  }

  /** In the two ranges the older formatter disagrees with Kubernetes. */
  lemma HumanTimeDisagrees(s: int)
    requires s == -1 || 600 <= s < 10800
    ensures HumanTime(s) != KubeHumanDuration(s)
  {
    if s == -1 {
      assert HumanTime(s)[0] == '-';
    } else {
      assert Quot(s, 60) == s / 60 && Quot(s, 3600) == s / 3600;
      var k := KubeHumanDuration(s);
      var h := HumanTime(s);
      assert k == NatToString(s / 60) + "m";
      var hours := NatToString(s / 3600);
      assert h[|hours|] == 'h';
      assert 'h' !in k by {
        assert forall i :: 0 <= i < |k| - 1 ==> k[i] == NatToString(s / 60)[i];
      }
    }
  }

  /** The components of a span that jiff rounded to days, hours, minutes and seconds. */
  datatype SpanParts = SpanParts(days: int, hours: int, minutes: int, seconds: int)

  /**
   * `human_time` of the newer engine, over the rounded components (`None`
   * when rounding failed). Only the components are compared, never the total,
   * so a day and six hours renders as "6h" and a minute and a half as "30s".
   */
  function HumanSpan(rounded: Option<SpanParts>): string {
    match rounded
    case None => "<invalid>"
    case Some(SpanParts(days, hours, minutes, seconds)) =>
      var years := Quot(days, 365);
      if years > 7 then IntToString(years) + "y"
      else if years > 1 then
        var days := Rem(days, 365);
        if days == 0 then IntToString(years) + "y" else IntToString(years) + "y" + IntToString(days) + "d"
      else if days > 7 then IntToString(days) + "d"
      else if days > 1 then
        if hours == 0 then IntToString(days) + "d" else IntToString(days) + "d" + IntToString(hours) + "h"
      else if hours > 7 then IntToString(hours) + "h"
      else if hours > 0 then
        if minutes == 0 then IntToString(hours) + "h" else IntToString(hours) + "h" + IntToString(minutes) + "m"
      else if minutes > 1 then
        if seconds == 0 then IntToString(minutes) + "m" else IntToString(minutes) + "m" + IntToString(seconds) + "s"
      else IntToString(seconds) + "s"
  }

  /** A day and six hours renders as "6h"; a minute and thirty seconds renders as "30s". */
  lemma HumanSpanDropsLeadingUnit()
    ensures HumanSpan(Some(SpanParts(1, 6, 0, 0))) == "6h"
    ensures HumanSpan(Some(SpanParts(0, 0, 1, 30))) == "30s"
  {
  }

  /** A single day is never shown: with one day the text only speaks of the hours and below. */
  lemma HumanSpanSingleDay(hours: int, minutes: int, seconds: int)
    ensures 'd' !in HumanSpan(Some(SpanParts(1, hours, minutes, seconds)))
  {
    var r := HumanSpan(Some(SpanParts(1, hours, minutes, seconds)));
    forall i | 0 <= i < |r| ensures r[i] != 'd' {
    }
  }

  /** The components of a non-negative number of seconds, days counted as 24 hours. */
  function Balanced(s: nat): (p: SpanParts)
    ensures p.days * 86400 + p.hours * 3600 + p.minutes * 60 + p.seconds == s
    ensures 0 <= p.hours < 24 && 0 <= p.minutes < 60 && 0 <= p.seconds < 60 && p.days >= 0
  {
    var underDay := s % 86400;
    var underHour := underDay % 3600;
    SpanParts(s / 86400, underDay / 3600, underHour / 60, underHour % 60)
  }

  /**
   * Over balanced components the newer formatter agrees with Kubernetes below
   * a minute, from two to ten minutes, from three hours to a day, and from two
   * days on.
   */
  lemma HumanSpanAgrees(s: nat)
    requires s < 60 || 120 <= s < 600 || 10800 <= s < 86400 || s >= 172800
    ensures HumanSpan(Some(Balanced(s))) == KubeHumanDuration(s)
  {
    if s < 86400 {
      HumanSpanAgreesWithinDay(s);
    } else {
      HumanSpanAgreesFromTwoDays(s);
    }
  }

  /** Below a minute, from two to ten minutes and from three hours to a day the two agree. */
  lemma HumanSpanAgreesWithinDay(s: nat)
    requires s < 60 || 120 <= s < 600 || 10800 <= s < 86400
    ensures HumanSpan(Some(Balanced(s))) == KubeHumanDuration(s)
  {
    BalancedParts(s);
    var p := Balanced(s);
    assert p.days == 0;
    if s >= 10800 {
      assert p.hours == s / 3600 && p.hours >= 3;
    } else {
      assert p.hours == 0;
    }
  }

  /** From two days on the two agree: days and hours up to a week, days up to two years, then years. */
  lemma HumanSpanAgreesFromTwoDays(s: nat)
    requires s >= 172800
    ensures HumanSpan(Some(Balanced(s))) == KubeHumanDuration(s)
  {
    BalancedParts(s);
    var p := Balanced(s);
    var hours := s / 3600;
    var days := hours / 24;
    assert p.days == days && days >= 2 && p.hours == hours % 24;
    assert Quot(days, 365) == days / 365;
    assert Rem(days, 365) == days % 365;
    assert hours < 24 * 8 <==> days < 8;
    assert hours < 24 * 365 * 2 <==> days < 365 * 2;
    assert hours < 24 * 365 * 8 <==> days < 365 * 8;
  }

  /** The balanced components are the ones Kubernetes derives by dividing the total. */
  lemma BalancedParts(s: nat)
    ensures Balanced(s).days == s / 3600 / 24 && Balanced(s).hours == (s / 3600) % 24
    ensures Balanced(s).minutes == (s / 60) % 60 && Balanced(s).seconds == s % 60
  {
    var h, r := s / 3600, s % 3600;
    var d, e := h / 24, h % 24;
    var m, sec := r / 60, r % 60;
    assert s == d * 86400 + (e * 3600 + r);
    assert s / 86400 == d && s % 86400 == e * 3600 + r;
    assert (e * 3600 + r) / 3600 == e && (e * 3600 + r) % 3600 == r;
    assert s == (h * 60 + m) * 60 + sec;
    assert s / 60 == h * 60 + m && s % 60 == sec;
    assert (h * 60 + m) % 60 == m;
  }
}
