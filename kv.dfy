/**
 * `KeyValue`: the `key=value` arguments of the command line, their parsing
 * from text and from lines of text, their conversion to a key and a path, and
 * the label selector one of them stands for.
 */
module KeyValues {
  import opened Wrappers
  import opened Strings
  import opened Fallible
  import opened Paths
  import OrderedMaps

  datatype KeyValue<T> = KeyValue(key: string, value: T)

  /**
   * `as_pair` and `into_pair`: the key and the value, by reference or by
   * move, which a value model does not tell apart.
   */
  function AsPair<T>(kv: KeyValue<T>): (r: (string, T)) {
    (kv.key, kv.value)
  }

  /** `from_parts` */
  function FromParts(parts: (string, string)): (r: KeyValue<string>) {
    KeyValue(parts.0, parts.1)
  }

  /** A pair read back is the same key and value, and the same pair. */
  lemma PairRoundTrip(kv: KeyValue<string>, parts: (string, string))
    ensures FromParts(AsPair(kv)) == kv
    ensures AsPair(FromParts(parts)) == parts
  {
  }

  const Delimiter: char := '='

  /** `from_text`: split at the first '='; text without one is refused with its own message. */
  function FromText(text: string): (r: Result<KeyValue<string>, string>)
    ensures r.Err? <==> Delimiter !in text
    ensures r.Err? ==> r.error == "Invalid key=value: no '=' in " + text
    ensures r.Ok? ==> text == r.value.key + [Delimiter] + r.value.value && Delimiter !in r.value.key
  {
    match SplitOnce(text, Delimiter)
    case Some(parts) => Ok(FromParts(parts))
    case None => Err("Invalid key=value: no '=' in " + text)
  }

  /** A key free of '=' and any value, '=' included, come back from their `key=value` text. */
  lemma FromTextRoundTrip(key: string, value: string)
    requires Delimiter !in key
    ensures FromText(key + [Delimiter] + value) == Ok(KeyValue(key, value))
  {
    SplitOnceUnique(key, value, Delimiter);
  }

  /** The error names the text that has no '='. */
  lemma FromTextRefuses(text: string)
    requires text == "aaa-bbb"
    ensures FromText(text) == Err("Invalid key=value: no '=' in aaa-bbb")
  {
    assert Delimiter !in text by {
      forall i | 0 <= i < |text| ensures text[i] != Delimiter {
      }
    }
    assert "Invalid key=value: no '=' in " + text == "Invalid key=value: no '=' in aaa-bbb";
  }

  /** `from_lines`: one entry per line, or the error of the first line without '='. */
  function FromLines(text: string): (r: Result<seq<KeyValue<string>>, string>)
    ensures r.Ok? <==> forall i :: 0 <= i < |Lines(text)| ==> Delimiter in Lines(text)[i]
    ensures r.Ok? ==> |r.value| == |Lines(text)|
    ensures r.Ok? ==> forall i :: 0 <= i < |Lines(text)| ==> Lines(text)[i] == r.value[i].key + [Delimiter] + r.value[i].value
    ensures r.Err? ==>
              exists i :: (0 <= i < |Lines(text)| && Delimiter !in Lines(text)[i]
                           && r.error == "Invalid key=value: no '=' in " + Lines(text)[i]
                           && forall j :: 0 <= j < i ==> Delimiter in Lines(text)[j])
  {
    TryCollect(Lines(text), FromText)
  }

  /** A trailing line feed adds no entry. */
  lemma FromLinesTrailingNewline(text: string)
    requires text != [] && text[|text| - 1] != '\n' && text[|text| - 1] != '\r'
    ensures FromLines(text + "\n") == FromLines(text)
  {
    TrailingNewlineAddsNoLine(text);
  }

  // ---------------------------------------------------------------------------
  // Paths

  /** `From<KeyValue<String>>`: the same key, the value taken as a path. */
  function ToPath(kv: KeyValue<string>): (r: KeyValue<Path>) {
    KeyValue(kv.key, kv.value)
  }

  /** `FromStr` for a key and a path: `from_text`, then the conversion. */
  function PathFromStr(text: string): (r: Result<KeyValue<Path>, string>)
    ensures r.Ok? <==> FromText(text).Ok?
    ensures r.Ok? ==> r.value == ToPath(FromText(text).value)
    ensures r.Err? ==> r.error == FromText(text).error
  {
    match FromText(text)
    case Ok(kv) => Ok(ToPath(kv))
    case Err(e) => Err(e)
  }

  /** The path text after the first '=' is the path, under the key before it. */
  lemma PathFromStrParts(key: string, path: Path)
    requires Delimiter !in key
    ensures PathFromStr(key + [Delimiter] + path) == Ok(KeyValue(key, path))
  {
    FromTextRoundTrip(key, path);
  }

  /** `path_to_key`: the final file-name component (text is always valid UTF-8 here). */
  function PathToKey(path: Path): (r: Option<string>) {
    FileName(path)
  }

  /** `from_path`: keyed by the file name, or refused when the path has none. */
  function FromPath(path: Path): (r: Result<KeyValue<Path>, string>)
    ensures r.Ok? <==> PathToKey(path).Some?
    ensures r.Ok? ==> r.value == KeyValue(PathToKey(path).value, path)
    ensures r.Err? ==> r.error == "No a valid filename"
  {
    match PathToKey(path)
    case Some(key) => Ok(KeyValue(key, path))
    case None => Err("No a valid filename")
  }

  /** A bare file name is its own key, and a name under any directory keys by that name. */
  lemma FromPathFileName(dir: Path, name: string)
    requires name != [] && name != "." && name != ".." && '/' !in name
    ensures FromPath(name) == Ok(KeyValue(name, name))
    ensures FromPath(JoinPath(dir, name)) == Ok(KeyValue(name, JoinPath(dir, name)))
  {
    FileNameOfJoin([], name);
    FileNameOfJoin(dir, name);
  }

  /** The root has no file name. */
  lemma FromPathRoot(path: Path)
    requires path == "/"
    ensures FromPath(path).Err?
  {
    assert Split(path, '/') == ["", ""] by {
      SplitJoin(["", ""], '/');
    }
  }

  // ---------------------------------------------------------------------------
  // Label selectors

  /** A `LabelSelector` with only its `match_labels`. */
  datatype LabelSelector = LabelSelector(matchLabels: Option<map<string, string>>)

  /** `match_labels(pairs)`: the labels collected into a map, a later pair overriding an earlier one. */
  function MatchLabels(pairs: seq<(string, string)>): (r: LabelSelector)
    ensures r.matchLabels.Some?
    ensures forall k :: k in r.matchLabels.value <==> OrderedMaps.LastValue(pairs, k).Some?
    ensures forall k :: k in r.matchLabels.value ==> r.matchLabels.value[k] == OrderedMaps.LastValue(pairs, k).value
  {
    LabelSelector(Some(LabelMap(pairs)))
  }

  function LabelMap(pairs: seq<(string, string)>): (m: map<string, string>)
    ensures forall k :: k in m <==> OrderedMaps.LastValue(pairs, k).Some?
    ensures forall k :: k in m ==> m[k] == OrderedMaps.LastValue(pairs, k).value
    decreases |pairs|
  {
    if pairs == [] then map[]
    else LabelMap(pairs[..|pairs| - 1])[pairs[|pairs| - 1].0 := pairs[|pairs| - 1].1]
  }

  /** `label_selector`: the one label this key and value make. */
  function Selector(kv: KeyValue<string>): (r: LabelSelector)
    ensures r.matchLabels == Some(map[kv.key := kv.value])
  {
    MatchLabels([AsPair(kv)])
  }
}
