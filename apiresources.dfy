/**
 * `api-resources`: one table row per resource the server prefers, filtered by
 * the subresource and namespaced options, with the VERBS and CATEGORIES
 * columns dropped in the normal output format.
 */
module ApiResourcesCommand {
  import opened Wrappers
  import opened Strings
  import opened Faults
  import opened Discovery
  import opened Show
  import Kubeapi

  /** The command's options: `--namespaced` and `--subresources`. */
  datatype ApiResources = ApiResources(namespaced: Option<bool>, subresources: bool)

  /** One row of the table, as `ApiResource` holds it. */
  datatype ResourceRow = ResourceRow(
    name: string,
    shortnames: string,
    apiversion: string,
    namespaced: bool,
    kind: string,
    verbs: string,
    categories: string)

  /** `option_vec`: an absent list shows as the empty text, a present one joined by ','. */
  function OptionVec(value: Option<seq<string>>): (s: string)
    ensures value.None? ==> s == ""
    ensures value.Some? && |value.value| == 1 ==> s == value.value[0]
  {
    match value
    case None => ""
    case Some(values) => Join(values, ",")
  }

  /** A present, non-empty list whose items hold no ',' is recovered by splitting its text. */
  lemma OptionVecSplits(values: seq<string>)
    requires |values| >= 1
    requires forall i :: 0 <= i < |values| ==> ',' !in values[i]
    ensures Split(OptionVec(Some(values)), ',') == values
  {
    assert [','] == ",";
    SplitJoin(values, ',');
  }

  /** An absent list and an empty one show alike. */
  lemma OptionVecAbsentIsEmpty()
    ensures OptionVec(None) == OptionVec(Some([])) == ""
  {
  }

  /** `ApiResource::new` */
  function NewRow(apiversion: string, r: APIResource): (row: ResourceRow)
    ensures row.name == r.name && row.kind == r.kind && row.namespaced == r.namespaced
    ensures row.apiversion == apiversion
    ensures row.shortnames == OptionVec(r.shortNames) && row.categories == OptionVec(r.categories)
    ensures row.verbs == Join(r.verbs, ",")
  {
    ResourceRow(r.name, OptionVec(r.shortNames), apiversion, r.namespaced, r.kind, Join(r.verbs, ","), OptionVec(r.categories))
  }

  /** The two filters of `collect`. */
  predicate Keeps(c: ApiResources, r: APIResource) {
    (c.subresources || '/' !in r.name) && (c.namespaced.None? || c.namespaced == Some(r.namespaced))
  }

  function CollectFrom(c: ApiResources, groupVersion: string, resources: seq<APIResource>): seq<ResourceRow>
    decreases |resources|
  {
    if resources == [] then []
    else
      var rest := CollectFrom(c, groupVersion, resources[1..]);
      if Keeps(c, resources[0]) then [NewRow(groupVersion, resources[0])] + rest else rest
  }

  /** `ApiResources::collect` */
  function Collect(c: ApiResources, list: APIResourceList): seq<ResourceRow> {
    CollectFrom(c, list.groupVersion, list.resources)
  }

  /** Every row stands for a resource of the list that passes both filters. */
  lemma {:induction false} CollectSound(c: ApiResources, groupVersion: string, resources: seq<APIResource>)
    decreases |resources|
    ensures forall row :: row in CollectFrom(c, groupVersion, resources) ==>
              exists r :: r in resources && Keeps(c, r) && row == NewRow(groupVersion, r)
  {
    if resources != [] {
      CollectSound(c, groupVersion, resources[1..]);
      forall row | row in CollectFrom(c, groupVersion, resources)
        ensures exists r :: r in resources && Keeps(c, r) && row == NewRow(groupVersion, r)
      {
        if row !in CollectFrom(c, groupVersion, resources[1..]) {
          assert row == NewRow(groupVersion, resources[0]);
        } else {
          var r :| r in resources[1..] && Keeps(c, r) && row == NewRow(groupVersion, r);
          assert r in resources;
        }
      }
    }
  }

  /** Every resource that passes both filters has its row. */
  lemma {:induction false} CollectComplete(c: ApiResources, groupVersion: string, resources: seq<APIResource>)
    decreases |resources|
    ensures forall r :: r in resources && Keeps(c, r) ==> NewRow(groupVersion, r) in CollectFrom(c, groupVersion, resources)
  {
    if resources != [] {
      CollectComplete(c, groupVersion, resources[1..]);
      forall r | r in resources && Keeps(c, r)
        ensures NewRow(groupVersion, r) in CollectFrom(c, groupVersion, resources)
      {
        if r != resources[0] {
          assert r in resources[1..];
        }
      }
    }
  }

  /** The filters keep the input order: collecting a concatenation concatenates the rows. */
  lemma {:induction false} CollectAppend(c: ApiResources, groupVersion: string, a: seq<APIResource>, b: seq<APIResource>)
    decreases |a|
    ensures CollectFrom(c, groupVersion, a + b) == CollectFrom(c, groupVersion, a) + CollectFrom(c, groupVersion, b)
  {
    if a == [] {
      assert a + b == b;
    } else {
      assert (a + b)[1..] == a[1..] + b;
      CollectAppend(c, groupVersion, a[1..], b);
    }
  }

  /** With subresources shown and no namespaced filter, every resource gets its row, in order. */
  lemma {:induction false} CollectUnfiltered(groupVersion: string, resources: seq<APIResource>)
    decreases |resources|
    ensures var rows := CollectFrom(ApiResources(None, true), groupVersion, resources);
            |rows| == |resources| && forall i :: 0 <= i < |resources| ==> rows[i] == NewRow(groupVersion, resources[i])
  {
    if resources != [] {
      CollectUnfiltered(groupVersion, resources[1..]);
      var rows := CollectFrom(ApiResources(None, true), groupVersion, resources);
      forall i | 0 <= i < |resources| ensures rows[i] == NewRow(groupVersion, resources[i]) {
        if i > 0 {
          assert resources[i] == resources[1..][i - 1];
        }
      }
    }
  }

  /** No row names a subresource unless asked to, and a namespaced filter holds for every row. */
  lemma FiltersHold(c: ApiResources, list: APIResourceList)
    ensures forall row :: row in Collect(c, list) ==> c.subresources || '/' !in row.name
    ensures forall row :: row in Collect(c, list) ==> c.namespaced.None? || c.namespaced == Some(row.namespaced)
    ensures forall row :: row in Collect(c, list) ==> row.apiversion == list.groupVersion
  {
    CollectSound(c, list.groupVersion, list.resources);
  }

  /** The `flat_map` over every resource list, in order. */
  function CollectAll(c: ApiResources, lists: seq<APIResourceList>): seq<ResourceRow>
    decreases |lists|
  {
    if lists == [] then [] else Collect(c, lists[0]) + CollectAll(c, lists[1..])
  }

  // ---------------------------------------------------------------------------
  // The table
  // ---------------------------------------------------------------------------

  const Header: Row := ["NAME", "SHORTNAMES", "APIVERSION", "NAMESPACED", "KIND", "VERBS", "CATEGORIES"]

  /** A boolean cell as `Display` writes it. */
  function BoolText(b: bool): string {
    if b then "true" else "false"
  }

  function Cells(row: ResourceRow): Row {
    [row.name, row.shortnames, row.apiversion, BoolText(row.namespaced), row.kind, row.verbs, row.categories]
  }

  /** The cells left once VERBS and CATEGORIES are gone. */
  function BriefCells(row: ResourceRow): Row {
    [row.name, row.shortnames, row.apiversion, BoolText(row.namespaced), row.kind]
  }

  /** `Table::new(rows)`: the header, then one line per row. */
  function TableOf(rows: seq<ResourceRow>): (t: Rows)
    ensures |t| == |rows| + 1 && t[0] == Header
    ensures forall i :: 0 <= i < |rows| ==> t[i + 1] == Cells(rows[i])
  {
    [Header] + seq(|rows|, i requires 0 <= i < |rows| => Cells(rows[i]))
  }

  /** The rows printed: the normal format drops VERBS and CATEGORIES, every other format keeps all seven columns. */
  function ShownRows(rows: seq<ResourceRow>, fmt: OutputFormat): Rows {
    var t := TableOf(rows);
    if fmt == Normal then RemoveColumn(RemoveColumn(t, "VERBS"), "CATEGORIES") else t
  }

  /** The table text of `ApiResources::exec`. */
  function ExecText(c: ApiResources, k: Kubeapi.Kubeapi, fmt: OutputFormat, layout: (Rows, Style, Padding) -> string): Result<string, Fault> {
    match Kubeapi.ServerPreferredResources(k)
    case Err(f) => Err(f)
    case Ok(lists) => Ok(layout(ShownRows(CollectAll(c, lists), fmt), Blank, Padding(0, 2, 0, 0)))
  }

  /** `ApiResources::exec` */
  method Exec(c: ApiResources, k: Kubeapi.Kubeapi, fmt: OutputFormat, layout: (Rows, Style, Padding) -> string)
    returns (out: Result<string, Fault>)
    ensures out == ExecText(c, k, fmt, layout)
  {
    var lists := Kubeapi.ServerPreferredResources(k);
    if lists.Err? {
      return Err(lists.error);
    }
    var table := new Table(TableOf(CollectAll(c, lists.value)));
    table.WithStyle(Blank);
    table.WithSettings(TableSettings(Blank, Padding(0, 2, 0, 0)));
    if fmt == Normal {
      table.RemoveColumnNamed("VERBS");
      table.RemoveColumnNamed("CATEGORIES");
    }
    out := Ok(layout(table.rows, table.style, table.padding));
  }

  /** A column named once in the header loses exactly its cell. */
  lemma {:induction false} KeepCellsDropOne(row: Row, header: Row, name: string, j: nat)
    requires |row| == |header| && j < |header| && header[j] == name
    requires forall i :: 0 <= i < |header| && i != j ==> header[i] != name
    ensures KeepCells(row, header, name) == row[..j] + row[j + 1..]
  {
    if j == 0 {
      assert name !in header[1..] by {
        forall i | 0 <= i < |header[1..]| ensures header[1..][i] != name {
          assert header[1..][i] == header[i + 1];
        }
      }
      KeepAllCells(row[1..], header[1..], name);
    } else {
      forall i | 0 <= i < |header[1..]| && i != j - 1 ensures header[1..][i] != name {
        assert header[1..][i] == header[i + 1];
      }
      KeepCellsDropOne(row[1..], header[1..], name, j - 1);
      assert row == [row[0]] + row[1..];
      assert row[..j] == [row[0]] + row[1..][..j - 1];
      assert row[j + 1..] == row[1..][j..];
    }
  }

  lemma VerbsOnce()
    ensures Header[5] == "VERBS"
    ensures forall i :: 0 <= i < |Header| && i != 5 ==> Header[i] != "VERBS"
  {
    forall i | 0 <= i < |Header| && i != 5 ensures Header[i] != "VERBS" {
      assert |Header[i]| != 5;
    }
  }

  lemma CategoriesOnce()
    ensures var h := Header[..5] + Header[6..];
            |h| == 6 && h[5] == "CATEGORIES"
            && forall i :: 0 <= i < |h| && i != 5 ==> h[i] != "CATEGORIES"
  {
    var h := Header[..5] + Header[6..];
    forall i | 0 <= i < |h| && i != 5 ensures h[i] != "CATEGORIES" {
      assert h[i] == Header[i];
      assert h[i][0] != 'C';
    }
  }

  /** Dropping the two columns from a seven-cell line keeps its first five cells. */
  lemma DropVerbsAndCategories(cells: Row)
    requires |cells| == 7
    ensures KeepCells(KeepCells(cells, Header, "VERBS"), Without(Header, "VERBS"), "CATEGORIES") == cells[..5]
  {
    VerbsOnce();
    CategoriesOnce();
    KeepCellsDropOne(cells, Header, "VERBS", 5);
    KeepCellsDropOne(Header, Header, "VERBS", 5);
    KeepHeaderCells(Header, "VERBS");
    var once := cells[..5] + cells[6..];
    KeepCellsDropOne(once, Header[..5] + Header[6..], "CATEGORIES", 5);
    assert once[..5] == cells[..5];
  }

  /** In the normal format the header is the first five columns and each resource shows those five cells. */
  lemma NormalShowsFiveColumns(rows: seq<ResourceRow>)
    ensures var shown := ShownRows(rows, Normal);
            |shown| == |rows| + 1
            && shown[0] == ["NAME", "SHORTNAMES", "APIVERSION", "NAMESPACED", "KIND"]
            && forall i :: 0 <= i < |rows| ==> shown[i + 1] == BriefCells(rows[i])
  {
    var t := TableOf(rows);
    var once := RemoveColumn(t, "VERBS");
    KeepHeaderCells(Header, "VERBS");
    assert once[0] == Without(Header, "VERBS");
    DropVerbsAndCategories(Header);
    KeepHeaderCells(once[0], "CATEGORIES");
    forall i | 0 <= i < |rows| ensures ShownRows(rows, Normal)[i + 1] == BriefCells(rows[i]) {
      DropVerbsAndCategories(Cells(rows[i]));
    }
  }
}
