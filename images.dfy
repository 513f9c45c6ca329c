/**
 * `node list-images`: the names a node reports for each container image are
 * parsed into a registry host, a repository path and a tag or digest, and
 * gathered into one `ImageInfo` per image. Two versions of the gathering
 * exist: the current one keeps the paths in an ordered set, the older one in
 * a vector.
 */
module Images {
  import opened Wrappers
  import opened Strings
  import opened Faults
  import opened SortedSets

  /** What follows the repository path: nothing, a digest (`@algo:value`) or a tag. */
  datatype Id = NoId | Hash(algo: string, value: string) | Tag(tag: string)

  datatype Image = Image(server: string, path: string, id: Id)

  /**
   * `Image::from_name`: the server is the text before the first '/'; the tag
   * is the text after the last ':' of the rest; a digest algorithm follows
   * the last '@' before it. A name without '/' is a bare path.
   */
  function FromName(name: string): (image: Image)
    ensures '/' !in name ==> image == Image("", name, NoId)
    ensures '/' in name ==> '/' !in image.server && |image.path| >= 1 && image.path[0] == '/'
    ensures image.id.Tag? ==> ':' !in image.id.tag
    ensures image.id.Hash? ==> ':' !in image.id.value && '@' !in image.id.algo
  {
    match SplitOnce(name, '/')
    case None => Image("", name, NoId)
    case Some((server, rest)) =>
      match RSplitOnce(rest, ':')
      case None => Image(server, "/" + rest, NoId)
      case Some((path, tag)) =>
        match RSplitOnce(path, '@')
        case None => Image(server, "/" + path, Tag(tag))
        case Some((path, algo)) => Image(server, "/" + path, Hash(algo, tag))
  }

  /** The name an image is written as: `server/body`, then `:tag` or `@algo:value`. */
  function NameOf(server: string, body: string, id: Id): string {
    match id
    case NoId => server + "/" + body
    case Tag(tag) => server + "/" + body + ":" + tag
    case Hash(algo, value) => server + "/" + body + "@" + algo + ":" + value
  }

  /** The names `FromName` reads back unchanged. */
  predicate Readable(server: string, body: string, id: Id) {
    '/' !in server
    && match id
       case NoId => ':' !in body
       case Tag(tag) => ':' !in tag && '@' !in body
       case Hash(algo, value) => ':' !in value && '@' !in algo
  }

  /** Parsing a written name gives back its server, its path (with a leading '/') and its tag or digest. */
  lemma FromNameRoundTrip(server: string, body: string, id: Id)
    requires Readable(server, body, id)
    ensures FromName(NameOf(server, body, id)) == Image(server, "/" + body, id)
  {
    match id
    case NoId =>
      assert NameOf(server, body, id) == server + ['/'] + body;
      SplitOnceUnique(server, body, '/');
    case Tag(tag) =>
      var rest := body + [':'] + tag;
      assert NameOf(server, body, id) == server + ['/'] + rest;
      SplitOnceUnique(server, rest, '/');
      RSplitOnceUnique(body, tag, ':');
    case Hash(algo, value) =>
      var path := body + ['@'] + algo;
      var rest := path + [':'] + value;
      assert NameOf(server, body, id) == server + ['/'] + rest;
      SplitOnceUnique(server, rest, '/');
      RSplitOnceUnique(path, value, ':');
      RSplitOnceUnique(body, algo, '@');
  }

  /** The round trip for a name given by its parts. */
  lemma FromNameOfParts(name: string, server: string, body: string, tag: string)
    requires Readable(server, body, Tag(tag)) && name == NameOf(server, body, Tag(tag))
    ensures FromName(name) == Image(server, "/" + body, Tag(tag))
  {
    FromNameRoundTrip(server, body, Tag(tag));
  }

  /**
   * The unit test's example, `cr.fluentbit.io/fluent/fluent-bit:3.2.8`: a
   * registry host, a two-level path and a version tag.
   */
  lemma FluentBitTag(name: string, server: string, body: string, tag: string)
    requires server == "cr.fluentbit.io" && body == "fluent/fluent-bit" && tag == "3.2.8"
    requires name == server + "/" + body + ":" + tag
    ensures FromName(name) == Image(server, "/" + body, Tag(tag))
  {
    FromNameOfParts(name, server, body, tag);
  }

  /** A digest after a tag: the tag stays in the path, and the digest is split at the last ':'. */
  lemma DigestAfterTag(server: string, repo: string, tag: string, algo: string, value: string)
    requires '/' !in server && ':' !in value && '@' !in algo
    ensures FromName(server + "/" + repo + ":" + tag + "@" + algo + ":" + value)
            == Image(server, "/" + repo + ":" + tag, Hash(algo, value))
  {
    assert server + "/" + repo + ":" + tag + "@" + algo + ":" + value == NameOf(server, repo + ":" + tag, Hash(algo, value));
    FromNameRoundTrip(server, repo + ":" + tag, Hash(algo, value));
  }

  // ---------------------------------------------------------------------------
  // find_common
  // ---------------------------------------------------------------------------

  /** `i` is the first of the shortest hosts. */
  predicate FirstShortest(hosts: seq<string>, i: nat) {
    i < |hosts|
    && (forall j :: 0 <= j < |hosts| ==> |hosts[i]| <= |hosts[j]|)
    && (forall j :: 0 <= j < i ==> |hosts[i]| < |hosts[j]|)
  }

  /** Every host ends with `suffix`. */
  predicate AllEndWith(hosts: seq<string>, suffix: string) {
    forall j :: 0 <= j < |hosts| ==> EndsWith(hosts[j], suffix)
  }

  /**
   * The fold that finds the shortest host: it keeps the index and length of
   * the shortest so far and replaces them only on a strictly shorter host.
   * The starting bound `usize::MAX`, which no length reaches, is `None`.
   */
  function ShortestFrom(hosts: seq<string>, from: nat, needle: nat, min: Option<nat>): (r: nat)
    requires needle < |hosts|
    decreases |hosts| - from
    ensures r < |hosts|
  {
    if from >= |hosts| then needle
    else if min.None? || |hosts[from]| < min.value then ShortestFrom(hosts, from + 1, from, Some(|hosts[from]|))
    else ShortestFrom(hosts, from + 1, needle, min)
  }

  /** What the fold knows after looking at the hosts before `from`. */
  predicate FoldSoFar(hosts: seq<string>, from: nat, needle: nat, min: Option<nat>) {
    from <= |hosts|
    && (from == 0 ==> min.None? && needle == 0)
    && (from > 0 ==>
          needle < from && min == Some(|hosts[needle]|)
          && (forall j :: 0 <= j < from ==> |hosts[needle]| <= |hosts[j]|)
          && (forall j :: 0 <= j < needle ==> |hosts[needle]| < |hosts[j]|))
  }

  lemma {:induction false} ShortestFromFindsFirst(hosts: seq<string>, from: nat, needle: nat, min: Option<nat>)
    requires |hosts| > 0 && needle < |hosts| && FoldSoFar(hosts, from, needle, min)
    decreases |hosts| - from
    ensures FirstShortest(hosts, ShortestFrom(hosts, from, needle, min))
  {
    if from < |hosts| {
      if min.None? || |hosts[from]| < min.value {
        ShortestFromFindsFirst(hosts, from + 1, from, Some(|hosts[from]|));
      } else {
        ShortestFromFindsFirst(hosts, from + 1, needle, min);
      }
    }
  }

  lemma FirstShortestUnique(hosts: seq<string>, i: nat, j: nat)
    requires FirstShortest(hosts, i) && FirstShortest(hosts, j)
    ensures i == j
  {
    assert |hosts[i]| == |hosts[j]|;
  }

  /**
   * `find_common`: the first shortest host, if every host ends with it, else
   * 0. It indexes the slice, so it needs at least one host.
   */
  function FindCommon(hosts: seq<string>): (r: nat)
    requires |hosts| > 0
    ensures r < |hosts|
  {
    var idx := ShortestFrom(hosts, 0, 0, None);
    if AllEndWith(hosts, hosts[idx]) then idx else 0
  }

  lemma FindCommonMeaning(hosts: seq<string>, i: nat)
    requires FirstShortest(hosts, i)
    ensures FindCommon(hosts) == if AllEndWith(hosts, hosts[i]) then i else 0
  {
    ShortestFromFindsFirst(hosts, 0, 0, None);
    FirstShortestUnique(hosts, i, ShortestFrom(hosts, 0, 0, None));
  }

  /** A mirror host such as `docker.io` is chosen over `registry-1.docker.io`, whatever their order. */
  lemma FindCommonPicksSuffix(short: string, prefix: string)
    requires prefix != []
    ensures FindCommon([prefix + short, short]) == 1
  {
    var hosts := [prefix + short, short];
    assert FirstShortest(hosts, 1);
    assert EndsWith(hosts[0], short) by {
      assert (prefix + short)[|prefix + short| - |short|..] == short;
    }
    assert EndsWith(hosts[1], short) by {
      assert short[|short| - |short|..] == short;
    }
    FindCommonMeaning(hosts, 1);
  }

  // ---------------------------------------------------------------------------
  // ImageInfo
  // ---------------------------------------------------------------------------

  datatype ContainerImage = ContainerImage(names: Option<seq<string>>, sizeBytes: Option<int>)

  datatype ImageInfo = ImageInfo(host: string, also: seq<string>, path: string, hash: map<string, string>, tags: seq<string>, size: int)

  /** The server of every name, in order. */
  function Servers(names: seq<string>): (r: seq<string>)
    ensures |r| == |names| && forall i :: 0 <= i < |names| ==> r[i] == FromName(names[i]).server
  {
    seq(|names|, i requires 0 <= i < |names| => FromName(names[i]).server)
  }

  /** The path of every name, in order. */
  function Paths(names: seq<string>): (r: seq<string>)
    ensures |r| == |names| && forall i :: 0 <= i < |names| ==> r[i] == FromName(names[i]).path
  {
    seq(|names|, i requires 0 <= i < |names| => FromName(names[i]).path)
  }

  /** The tags, in name order. */
  function Tags(names: seq<string>): seq<string>
    decreases |names|
  {
    if names == [] then []
    else
      var last := FromName(names[|names| - 1]);
      Tags(names[..|names| - 1]) + (if last.id.Tag? then [last.id.tag] else [])
  }

  /** The digests by algorithm, a later name overwriting an earlier one. */
  function Hashes(names: seq<string>): map<string, string>
    decreases |names|
  {
    if names == [] then map[]
    else
      var last := FromName(names[|names| - 1]);
      var earlier := Hashes(names[..|names| - 1]);
      if last.id.Hash? then earlier[last.id.algo := last.id.value] else earlier
  }

  /** `Vec::remove(i)` */
  function RemoveAt(xs: seq<string>, i: nat): (r: seq<string>)
    requires i < |xs|
    ensures |r| == |xs| - 1
    ensures forall j :: 0 <= j < i ==> r[j] == xs[j]
    ensures forall j :: i <= j < |r| ==> r[j] == xs[j + 1]
  {
    xs[..i] + xs[i + 1..]
  }

  /** `retain_mut(|item| item != x)` */
  function RemoveEqual(xs: seq<string>, x: string): (r: seq<string>)
    decreases |xs|
  {
    if xs == [] then []
    else (if xs[0] == x then [] else [xs[0]]) + RemoveEqual(xs[1..], x)
  }

  lemma {:induction false} RemoveEqualMeaning(xs: seq<string>, x: string)
    decreases |xs|
    ensures forall y :: y in RemoveEqual(xs, x) <==> y in xs && y != x
  {
    if xs != [] {
      RemoveEqualMeaning(xs[1..], x);
      assert xs == [xs[0]] + xs[1..];
    }
  }

  /** The host, and the other hosts with every copy of it removed. */
  function HostAndAlso(servers: seq<string>): (r: (string, seq<string>))
    requires |servers| > 0
    ensures r.0 in servers
    ensures forall y :: y in r.1 <==> y in servers && y != r.0
  {
    var common := FindCommon(servers);
    var host := servers[common];
    var rest := RemoveAt(servers, common);
    RemoveEqualMeaning(rest, host);
    assert forall y :: y in servers && y != host ==> y in rest by {
      forall y | y in servers && y != host ensures y in rest {
        var j :| 0 <= j < |servers| && servers[j] == y;
        if j < common { assert rest[j] == y; } else { assert j > common; assert rest[j - 1] == y; }
      }
    }
    (host, RemoveEqual(rest, host))
  }

  /** `ImageInfo::from_container_image`, as a function of the reported image. */
  function InfoOf(image: ContainerImage): Option<ImageInfo> {
    if image.names.None? || image.sizeBytes.None? then None
    else
      var names := image.names.value;
      var paths := FromSeq(Paths(names));
      if paths == [] then None
      else
        var (host, also) := HostAndAlso(Servers(names));
        Some(ImageInfo(host, also, paths[0], Hashes(names), Tags(names), image.sizeBytes.value))
  }

  /** What one more name adds to each collection. */
  lemma GatherStep(names: seq<string>, i: nat)
    requires i < |names|
    ensures var image := FromName(names[i]);
            Servers(names[..i + 1]) == Servers(names[..i]) + [image.server]
            && Paths(names[..i + 1]) == Paths(names[..i]) + [image.path]
            && Tags(names[..i + 1]) == Tags(names[..i]) + (if image.id.Tag? then [image.id.tag] else [])
            && Hashes(names[..i + 1]) == (if image.id.Hash? then Hashes(names[..i])[image.id.algo := image.id.value] else Hashes(names[..i]))
  {
    assert names[..i + 1][..i] == names[..i];
  }

  /** The loop of `from_container_image`: servers, digests and tags in name order. */
  method Gather(names: seq<string>) returns (also: seq<string>, hash: map<string, string>, tags: seq<string>)
    ensures also == Servers(names) && hash == Hashes(names) && tags == Tags(names)
  {
    also, hash, tags := [], map[], [];
    for i := 0 to |names|
      invariant also == Servers(names[..i]) && hash == Hashes(names[..i]) && tags == Tags(names[..i])
    {
      GatherStep(names, i);
      var parsed := FromName(names[i]);
      also := also + [parsed.server];
      match parsed.id
      case NoId =>
      case Hash(algo, value) => hash := hash[algo := value];
      case Tag(tag) => tags := tags + [tag];
    }
    assert names[..|names|] == names;
  }

  /** The paths, inserted one by one into an ordered set. */
  method GatherPaths(names: seq<string>) returns (paths: seq<string>)
    ensures paths == FromSeq(Paths(names))
  {
    paths := [];
    for i := 0 to |names|
      invariant paths == FromSeq(Paths(names[..i]))
    {
      GatherStep(names, i);
      assert Paths(names[..i + 1])[..i] == Paths(names[..i]);
      paths := Insert(paths, FromName(names[i]).path);
    }
    assert names[..|names|] == names;
  }

  /** The paths pushed one by one onto a vector. */
  method GatherPathsInOrder(names: seq<string>) returns (paths: seq<string>)
    ensures paths == Paths(names)
  {
    paths := [];
    for i := 0 to |names|
      invariant paths == Paths(names[..i])
    {
      GatherStep(names, i);
      paths := paths + [FromName(names[i]).path];
    }
    assert names[..|names|] == names;
  }

  /** `ImageInfo::from_container_image` */
  method FromContainerImage(image: ContainerImage) returns (info: Option<ImageInfo>)
    ensures info == InfoOf(image)
  {
    if image.names.None? || image.sizeBytes.None? {
      return None;
    }
    var names := image.names.value;
    var also, hash, tags := Gather(names);
    var paths := GatherPaths(names);
    if paths == [] {
      return None;
    }
    var path := paths[0];
    var common := FindCommon(also);
    var host := also[common];
    also := also[..common] + also[common + 1..];
    also := RemoveEqual(also, host);
    return Some(ImageInfo(host, also, path, hash, tags, image.sizeBytes.value));
  }

  /** No image information without names, without a size, or with an empty name list. */
  lemma InfoAbsent(image: ContainerImage)
    ensures InfoOf(image).None? <==> image.names.None? || image.sizeBytes.None? || image.names.value == []
  {
    if image.names.Some? && image.names.value != [] {
      FromSeqSorted(Paths(image.names.value));
      assert Paths(image.names.value)[0] in FromSeq(Paths(image.names.value));
    }
  }

  /** The path shown is the least of all parsed paths, and one of them. */
  lemma InfoPathIsLeast(image: ContainerImage)
    requires InfoOf(image).Some?
    ensures var paths := Paths(image.names.value);
            InfoOf(image).value.path in paths
            && forall p :: p in paths ==> LexLe(InfoOf(image).value.path, p)
  {
    var paths := Paths(image.names.value);
    FromSeqSorted(paths);
    FirstIsLeast(FromSeq(paths));
  }

  /** The host is one of the servers, and no copy of it stays among the others. */
  lemma InfoHost(image: ContainerImage)
    requires InfoOf(image).Some?
    ensures var info := InfoOf(image).value;
            var servers := Servers(image.names.value);
            info.host == servers[FindCommon(servers)]
            && info.host !in info.also
            && forall a :: a in info.also ==> a in servers
  {
    var servers := Servers(image.names.value);
    var common := FindCommon(servers);
    RemoveEqualMeaning(RemoveAt(servers, common), servers[common]);
  }

  /** Tags keep the order of the names they come from. */
  lemma {:induction false} TagsAppend(a: seq<string>, b: seq<string>)
    decreases |b|
    ensures Tags(a + b) == Tags(a) + Tags(b)
  {
    if b == [] {
      assert a + b == a;
    } else {
      var init := b[..|b| - 1];
      assert (a + b)[..|a + b| - 1] == a + init;
      TagsAppend(a, init);
    }
  }

  /** The digest kept for an algorithm is the one of the last name that has it. */
  lemma {:induction false} HashesLastWins(names: seq<string>, i: nat)
    requires i < |names| && FromName(names[i]).id.Hash?
    requires forall j :: i < j < |names| ==> !(FromName(names[j]).id.Hash? && FromName(names[j]).id.algo == FromName(names[i]).id.algo)
    decreases |names|
    ensures var id := FromName(names[i]).id;
            id.algo in Hashes(names) && Hashes(names)[id.algo] == id.value
  {
    var init := names[..|names| - 1];
    if i < |names| - 1 {
      assert init[i] == names[i];
      forall j | i < j < |init|
        ensures !(FromName(init[j]).id.Hash? && FromName(init[j]).id.algo == FromName(init[i]).id.algo)
      {
        assert init[j] == names[j];
      }
      HashesLastWins(init, i);
    }
  }

  // ---------------------------------------------------------------------------
  // The older version
  // ---------------------------------------------------------------------------

  /** `Vec::dedup`: runs of equal neighbours collapse to one. */
  function Dedup(xs: seq<string>): (r: seq<string>)
    decreases |xs|
    ensures xs != [] ==> r != [] && r[0] == xs[0]
    ensures |r| <= |xs|
  {
    if |xs| <= 1 then xs
    else if xs[0] == xs[1] then Dedup(xs[1..])
    else [xs[0]] + Dedup(xs[1..])
  }

  /**
   * The older `ImageInfo::from_container_image`: paths kept in name order,
   * and an empty name list reaches `find_common`, which indexes an empty
   * slice and panics.
   */
  function LegacyInfoOf(image: ContainerImage): Result<Option<ImageInfo>, Fault> {
    if image.names.None? || image.sizeBytes.None? then Ok(None)
    else
      var names := image.names.value;
      if names == [] then Err(Panic("index out of bounds: find_common on an empty list"))
      else
        var (host, also) := HostAndAlso(Servers(names));
        Ok(Some(ImageInfo(host, also, Dedup(Paths(names))[0], Hashes(names), Tags(names), image.sizeBytes.value)))
  }

  /** The older `ImageInfo::from_container_image` */
  method LegacyFromContainerImage(image: ContainerImage) returns (r: Result<Option<ImageInfo>, Fault>)
    ensures r == LegacyInfoOf(image)
  {
    if image.names.None? || image.sizeBytes.None? {
      return Ok(None);
    }
    var names := image.names.value;
    var also, hash, tags := Gather(names);
    var paths := GatherPathsInOrder(names);
    if also == [] {
      return Err(Panic("index out of bounds: find_common on an empty list"));
    }
    var common := FindCommon(also);
    var host := also[common];
    also := also[..common] + also[common + 1..];
    also := RemoveEqual(also, host);
    paths := Dedup(paths);
    var path := paths[0];
    return Ok(Some(ImageInfo(host, also, path, hash, tags, image.sizeBytes.value)));
  }

  /** The older version shows the first name's path, since `dedup` only merges neighbours. */
  lemma LegacyPathIsFirst(image: ContainerImage)
    requires LegacyInfoOf(image).Ok? && LegacyInfoOf(image).value.Some?
    ensures LegacyInfoOf(image).value.value.path == FromName(image.names.value[0]).path
  {
  }

  /** Both versions agree on everything but the path; the older one panics where the newer gives nothing. */
  lemma LegacyAgreesButPath(image: ContainerImage)
    ensures InfoOf(image).None? ==> LegacyInfoOf(image) == Ok(None) || LegacyInfoOf(image).Err?
    ensures InfoOf(image).Some? ==>
              LegacyInfoOf(image).Ok? && LegacyInfoOf(image).value.Some?
              && LegacyInfoOf(image).value.value == InfoOf(image).value.(path := LegacyInfoOf(image).value.value.path)
  {
    InfoAbsent(image);
  }

  /** Two names whose paths are out of order show different paths in the two versions. */
  lemma LegacyAndCurrentDisagree()
    ensures var image := ContainerImage(Some(["r/z", "r/a"]), Some(1));
            InfoOf(image).value.path == "/a" && LegacyInfoOf(image).value.value.path == "/z"
  {
    var names := ["r/z", "r/a"];
    assert "r/z" == "r" + ['/'] + "z" && "r/a" == "r" + ['/'] + "a";
    SplitOnceUnique("r", "z", '/');
    SplitOnceUnique("r", "a", '/');
    assert FromName(names[0]).path == "/z";
    assert FromName(names[1]).path == "/a";
    var paths := Paths(names);
    assert paths == ["/z", "/a"];
    FromSeqSorted(paths);
    assert LexLe("/a", "/z");
    assert FromSeq(paths) == ["/a", "/z"] by {
      assert Sorted(["/a", "/z"]);
      SortedUnique(FromSeq(paths), ["/a", "/z"]);
    }
  }
}
