/** The parts of `std::path` the model needs, on Unix paths held as text. */
module Paths {
  import opened Wrappers
  import opened Strings

  type Path = string

  /**
   * `base.join(part)`: an absolute `part` replaces `base`; otherwise `part` is
   * appended, with one '/' in between unless `base` is empty or already ends
   * with '/'.
   */
  function JoinPath(base: Path, part: Path): Path
  {
    if |part| > 0 && part[0] == '/' then part
    else if base == [] || base[|base| - 1] == '/' then base + part
    else base + "/" + part
  }

  /** The components of a path that name something: empty pieces and "." are dropped. */
  function Components(p: Path): (r: seq<string>)
    ensures forall i :: 0 <= i < |r| ==> r[i] != [] && r[i] != "." && '/' !in r[i]
  {
    Named(Split(p, '/'))
  }

  function Named(pieces: seq<string>): (r: seq<string>)
    requires forall i :: 0 <= i < |pieces| ==> '/' !in pieces[i]
    ensures forall i :: 0 <= i < |r| ==> r[i] != [] && r[i] != "." && '/' !in r[i]
    ensures |r| <= |pieces|
  {
    if pieces == [] then []
    else
      var rest := Named(pieces[1..]);
      if pieces[0] == [] || pieces[0] == "." then rest else [pieces[0]] + rest
  }

  /** `p.file_name()`: the last component, unless there is none or it is "..". */
  function FileName(p: Path): (r: Option<string>)
    ensures r.Some? ==> r.value != [] && r.value != "." && r.value != ".." && '/' !in r.value
  {
    var c := Components(p);
    if c == [] || c[|c| - 1] == ".." then None else Some(c[|c| - 1])
  }

  /** A plain file name joined onto any directory is that path's file name again. */
  lemma FileNameOfJoin(dir: Path, name: string)
    requires name != [] && name != "." && name != ".." && '/' !in name
    ensures FileName(JoinPath(dir, name)) == Some(name)
  {
    var p := JoinPath(dir, name);
    if dir == [] {
      assert p == name;
      SplitJoin([name], '/');
      assert Split(name, '/') == [name];
    } else {
      var d := if dir[|dir| - 1] == '/' then dir[..|dir| - 1] else dir;
      assert p == d + "/" + name;
      SplitSnocPiece(d, name, '/');
    }
    NamedSnoc(Split(p, '/')[..|Split(p, '/')| - 1], name);
    assert Split(p, '/') == Split(p, '/')[..|Split(p, '/')| - 1] + [name];
  }

  /** Splitting after a separator and a final piece free of it appends that piece. */
  lemma SplitSnocPiece(s: string, x: string, c: char)
    requires c !in x
    ensures Split(s + [c] + x, c) == Split(s, c) + [x]
  {
    var p := Split(s, c);
    JoinSnoc(p, x, [c]);
    assert forall i :: 0 <= i < |p + [x]| ==> c !in (p + [x])[i];
    SplitJoin(p + [x], c);
  }

  lemma {:induction false} NamedSnoc(pieces: seq<string>, x: string)
    requires forall i :: 0 <= i < |pieces| ==> '/' !in pieces[i]
    requires x != [] && x != "." && '/' !in x
    ensures Named(pieces + [x]) == Named(pieces) + [x]
  {
    if pieces == [] {
      assert Named([x]) == [x] + Named([]);
    } else {
      assert (pieces + [x])[1..] == pieces[1..] + [x];
      NamedSnoc(pieces[1..], x);
    }
  }
}
