/**
 * The directory listing behind the `filer` provider
 * (crates/stdio_server/src/filer.rs): rendering one entry, reading a
 * directory into sorted display strings, and shaping the reply to a request.
 *
 * The filesystem is abstracted: what `fs::read_dir` yields is given as a
 * `ReadDir` value, each entry carrying its file name and whether it is a
 * directory; the icon prefix is a function handed in by the caller.
 */
module Filer {
  import opened Base
  import opened LexOrder

  /** `std::path::MAIN_SEPARATOR` on Unix. */
  const MainSeparator: char := '/'

  /** The `provider_id` every reply is tagged with. */
  const ProviderId: string := "filer"

  /** An entry of a directory: its file name (`None` when it has none or it is not UTF-8) and whether it is a directory. */
  datatype DirEntry = DirEntry(fileName: Option<string>, isDir: bool)

  /** What `fs::read_dir` gives: an error, or the entries in read order, each of which may itself be an error. */
  datatype ReadDir = ReadDirFailed(message: string) | Listing(items: seq<Result<DirEntry, string>>)

  /** The name part of `DisplayPath::into`: the file name, with the separator appended for a directory. */
  function PathStr(e: DirEntry): string
    requires e.fileName.Some?
  {
    if e.isDir then e.fileName.value + [MainSeparator] else e.fileName.value
  }

  /** Reads a rendering without icon back into a file name and whether it names a directory. */
  function ParseDisplay(s: string): (string, bool)
  {
    if |s| > 0 && s[|s| - 1] == MainSeparator then (s[..|s| - 1], true) else (s, false)
  }

  /**
   * A file name never holds the separator, so the path string tells the name
   * and the kind of entry apart: directories are exactly the strings that end
   * with the separator.
   */
  lemma PathStrRoundTrip(e: DirEntry)
    requires e.fileName.Some?
    ensures MainSeparator !in e.fileName.value ==> ParseDisplay(PathStr(e)) == (e.fileName.value, e.isDir)
  {
    var name := e.fileName.value;
    if e.isDir {
      assert (name + [MainSeparator])[..|name|] == name;
    } else if |name| > 0 {
      assert name[|name| - 1] in name;
    }
  }

  /** `DisplayPath::into`; the file name is unwrapped, so it must be present. */
  function Display(e: DirEntry, enableIcon: bool, prependIcon: (DirEntry, string) -> string): (s: string)
    requires e.fileName.Some?
    ensures !enableIcon ==> |s| >= |e.fileName.value| && s[..|e.fileName.value|] == e.fileName.value
    ensures !enableIcon && MainSeparator !in e.fileName.value ==> ParseDisplay(s) == (e.fileName.value, e.isDir)
    ensures enableIcon ==> s == prependIcon(e, PathStr(e))
  {
    var pathStr := PathStr(e);
    if enableIcon then prependIcon(e, pathStr)
    else
      PathStrRoundTrip(e);
      pathStr
  }

  /** The iterator's `unwrap` demand: every entry read before the first error has a file name. */
  predicate NamedUntilFailure(items: seq<Result<DirEntry, string>>)
    decreases |items|
  {
    items == [] || (items[0].Success? ==> items[0].value.fileName.Some? && NamedUntilFailure(items[1..]))
  }

  /** The entries `take(m)` lets through: all of them without a maximum. */
  function TakeCount(n: nat, max: Option<nat>): nat
  {
    match max
    case None => n
    case Some(m) => Min(m, n)
  }

  /** The position of the first error among `items`, if any. */
  function FirstFailure(items: seq<Result<DirEntry, string>>): (r: Option<nat>)
    ensures r.None? <==> forall i :: 0 <= i < |items| ==> items[i].Success?
    ensures r.Some? ==> r.value < |items| && items[r.value].Failure?
    ensures r.Some? ==> forall j :: 0 <= j < r.value ==> items[j].Success?
    decreases |items|
  {
    if items == [] then None
    else if items[0].Failure? then Some(0)
    else match FirstFailure(items[1..])
      case None => None
      case Some(k) => Some(k + 1)
  }

  /**
   * `collect::<Result<Vec<_>, io::Error>>()` of the rendered entries: the first
   * error if there is one, otherwise every entry rendered, in read order.
   */
  function CollectDisplayed(items: seq<Result<DirEntry, string>>, enableIcon: bool,
                            prependIcon: (DirEntry, string) -> string): (r: Result<seq<string>, string>)
    requires NamedUntilFailure(items)
    ensures r.Failure? <==> FirstFailure(items).Some?
    ensures r.Failure? ==> items[FirstFailure(items).value] == Failure(r.error)
    ensures r.Success? ==> |r.value| == |items|
    ensures r.Success? ==>
      forall i :: 0 <= i < |items| ==>
        (items[i].Success? && items[i].value.fileName.Some? &&
         r.value[i] == Display(items[i].value, enableIcon, prependIcon))
    decreases |items|
  {
    if items == [] then Success([])
    else match items[0]
      case Failure(e) => Failure(e)
      case Success(entry) =>
        var head := Display(entry, enableIcon, prependIcon);
        match CollectDisplayed(items[1..], enableIcon, prependIcon)
        case Failure(e) => Failure(e)
        case Success(rest) => Success([head] + rest)
  }

  /** Inserts `x` into an ascending sequence, after the strings at most `x`. */
  method Insert(s: seq<string>, x: string) returns (r: seq<string>)
    requires Sorted(s)
    ensures Sorted(r)
    ensures multiset(r) == multiset(s) + multiset{x}
  {
    var j := 0;
    while j < |s| && LessEq(s[j], x)
      invariant 0 <= j <= |s|
      invariant forall k :: 0 <= k < j ==> LessEq(s[k], x)
    {
      j := j + 1;
    }
    forall k | j <= k < |s|
      ensures LessEq(x, s[k])
    {
      Total(s[j], x);
      if k > j {
        Transitive(x, s[j], s[k]);
      }
    }
    r := s[..j] + [x] + s[j..];
    assert s == s[..j] + s[j..];
    forall p, q | 0 <= p < q < |r|
      ensures LessEq(r[p], r[q])
    {
      if p < j && q > j {
        Transitive(s[p], x, s[q - 1]);
      }
    }
  }

  /** `entries.sort()`: ascending order, same strings. */
  method SortEntries(entries: seq<string>) returns (sorted: seq<string>)
    ensures Sorted(sorted)
    ensures multiset(sorted) == multiset(entries)
  {
    sorted := [];
    var i := 0;
    while i < |entries|
      invariant 0 <= i <= |entries|
      invariant Sorted(sorted)
      invariant multiset(sorted) == multiset(entries[..i])
    {
      sorted := Insert(sorted, entries[i]);
      assert entries[..i + 1] == entries[..i] + [entries[i]];
      i := i + 1;
    }
    assert entries[..|entries|] == entries;
  }

  /**
   * `read_dir_entries`: a failing `read_dir`, or an error on any entry among the
   * first `max` (all without a maximum), fails the call; otherwise the rendered
   * entries among the first `max` in read order, sorted.
   */
  method ReadDirEntries(dir: ReadDir, enableIcon: bool, prependIcon: (DirEntry, string) -> string,
                        max: Option<nat>) returns (r: Result<seq<string>, string>)
    requires dir.Listing? ==> NamedUntilFailure(dir.items[..TakeCount(|dir.items|, max)])
    ensures dir.ReadDirFailed? ==> r == Failure(dir.message)
    ensures dir.Listing? ==> (r.Failure? <==> FirstFailure(dir.items[..TakeCount(|dir.items|, max)]).Some?)
    ensures dir.Listing? && r.Failure? ==>
      dir.items[FirstFailure(dir.items[..TakeCount(|dir.items|, max)]).value] == Failure(r.error)
    ensures r.Success? ==> dir.Listing? && Sorted(r.value) && |r.value| == TakeCount(|dir.items|, max)
    ensures r.Success? ==>
      var taken := CollectDisplayed(dir.items[..TakeCount(|dir.items|, max)], enableIcon, prependIcon);
      taken.Success? && multiset(r.value) == multiset(taken.value)
  {
    if dir.ReadDirFailed? {
      return Failure(dir.message);
    }
    var taken := dir.items[..TakeCount(|dir.items|, max)];
    var collected := CollectDisplayed(taken, enableIcon, prependIcon);
    if collected.Failure? {
      return Failure(collected.error);
    }
    var entries := SortEntries(collected.value);
    assert |entries| == |multiset(entries)| == |multiset(collected.value)| == |collected.value|;
    r := Success(entries);
  }

  /** A request to the provider: its id and the directory it asks about (`msg.get_cwd()`). */
  datatype Message = Message(id: u64, cwd: string)

  /** The reply: `{id, provider_id, result: {entries, dir, total}}` or `{id, provider_id, error: {message, dir}}`. */
  datatype FilerResponse =
    | FilerResult(id: u64, providerId: string, entries: seq<string>, dir: string, total: nat)
    | FilerError(id: u64, providerId: string, message: string, dir: string)

  /**
   * `handle_message`: lists the requested directory (no maximum) and replies
   * with the sorted entries and their count, or with the error; both replies
   * carry the request's id, the provider id and the directory.
   */
  method HandleMessage(msg: Message, listing: ReadDir, enableIcon: bool,
                       prependIcon: (DirEntry, string) -> string) returns (resp: FilerResponse)
    requires listing.Listing? ==> NamedUntilFailure(listing.items)
    ensures resp.id == msg.id && resp.providerId == ProviderId && resp.dir == msg.cwd
    ensures resp.FilerError? <==> listing.ReadDirFailed? || FirstFailure(listing.items).Some?
    ensures listing.ReadDirFailed? ==> resp.FilerError? && resp.message == listing.message
    ensures listing.Listing? && resp.FilerError? ==>
      listing.items[FirstFailure(listing.items).value] == Failure(resp.message)
    ensures resp.FilerResult? ==>
      listing.Listing? && resp.total == |resp.entries| == |listing.items| && Sorted(resp.entries)
    ensures resp.FilerResult? ==>
      var c := CollectDisplayed(listing.items, enableIcon, prependIcon);
      c.Success? && multiset(resp.entries) == multiset(c.value)
  {
    if listing.Listing? {
      assert listing.items[..TakeCount(|listing.items|, None)] == listing.items;
    }
    var result := ReadDirEntries(listing, enableIcon, prependIcon, None);
    match result
    case Success(entries) =>
      resp := FilerResult(msg.id, ProviderId, entries, msg.cwd, |entries|);
    case Failure(err) =>
      resp := FilerError(msg.id, ProviderId, err, msg.cwd);
  }

  /**
   * A folder holding `b.txt`, a subdirectory `A` and `c.log`, listed without
   * icons: the subdirectory gets the separator and the names come out in order.
   */
  lemma ListingExample(prependIcon: (DirEntry, string) -> string, sorted: seq<string>)
    requires var items := [Success(DirEntry(Some("b.txt"), false)), Success(DirEntry(Some("A"), true)),
                           Success(DirEntry(Some("c.log"), false))];
      var c := CollectDisplayed(items, false, prependIcon);
      c.Success? && Sorted(sorted) && multiset(sorted) == multiset(c.value)
    ensures sorted == ["A/", "b.txt", "c.log"]
  {
    var expected := ["A/", "b.txt", "c.log"];
    assert LessEq("A/", "b.txt") && LessEq("b.txt", "c.log") && LessEq("A/", "c.log");
    assert Sorted(expected);
    var items: seq<Result<DirEntry, string>> :=
                 [Success(DirEntry(Some("b.txt"), false)), Success(DirEntry(Some("A"), true)),
                  Success(DirEntry(Some("c.log"), false))];
    assert PathStr(DirEntry(Some("A"), true)) == "A/";
    var c := CollectDisplayed(items, false, prependIcon).value;
    assert |c| == 3 && c[0] == "b.txt" && c[1] == "A/" && c[2] == "c.log";
    assert c == ["b.txt", "A/", "c.log"];
    assert multiset(c) == multiset(expected);
    SortedUnique(sorted, expected);
  }
}
