/**
 * The path computation of commands/retrieve.js: which metadata types are
 * listed, how folder results are expanded into nested listings, which
 * results survive the namespace scope, how each result becomes a local path
 * under `src/`, and how the per-group results are merged. The org's
 * `listMetadata` is a function parameter; unzipping, copying and the
 * metadata map are not modelled.
 */
module Retrieve {
  import opened Wrappers
  import opened Strings
  import Sorting

  /**
   * One type to list: its API name, its subfolder ("" when there is none,
   * which JavaScript treats as absent) and, for types matched from the
   * globs, the local directory the type lives in.
   */
  datatype TypeQuery = TypeQuery(name: string, subFolder: string, folder: Option<string>)

  /** One `FileProperties` record returned by `listMetadata`; a null or undefined prefix is None. */
  datatype FileProps = FileProps(typeName: string, fullName: string, fileName: string, namespacePrefix: Option<string>)

  /**
   * What the expansion loop collects: a listed record, or the settled result
   * of the nested listing of a folder (None for the `null` an empty listing gives).
   */
  datatype Item = Props(md: FileProps) | Nested(paths: Option<seq<string>>)

  /** An element of the flattened, compacted list: a record or a path already computed by the nested listing. */
  datatype Entry = File(md: FileProps) | Path(path: string)

  /** The `--all` flag and the `--ns` value ("" when not given). */
  datatype Scope = Scope(all: bool, ns: string)

  datatype RetrieveError =
    | Remote(message: string)           // listMetadata rejected
    | TypeNotQueried(typeName: string)  // `_.find(types, ...)` found nothing, so reading `.folder` throws
    | TooDeep                           // folder nesting beyond the modelled depth
    | Reason(message: string)

  const DefaultGlob: string := "src/**/*"
  const NoFilesMessage: string := "no files found for retrieve"
  /** The number of types a single `listMetadata` call accepts. */
  const GroupSize: nat := 3

  // ---------------------------------------------------------------- folder types

  /** The type that lists the folders of a foldered type. */
  function FolderType(name: string): (r: Option<string>)
    ensures r.Some? ==> ContentType(r.value) == Some(name)
    ensures r.Some? <==> name in {"Document", "EmailTemplate", "Report", "Dashboard"}
  {
    if name == "Document" then Some("DocumentFolder")
    else if name == "EmailTemplate" then Some("EmailFolder")
    else if name == "Report" then Some("ReportFolder")
    else if name == "Dashboard" then Some("DashboardFolder")
    else None
  }

  /** The type of the contents of a folder type. */
  function ContentType(typeName: string): (r: Option<string>)
    ensures r.Some? <==> typeName in {"DocumentFolder", "EmailFolder", "ReportFolder", "DashboardFolder"}
  {
    if typeName == "DocumentFolder" then Some("Document")
    else if typeName == "EmailFolder" then Some("EmailTemplate")
    else if typeName == "ReportFolder" then Some("Report")
    else if typeName == "DashboardFolder" then Some("Dashboard")
    else None
  }

  /** Each folder type lists the folders of exactly one foldered type. */
  lemma FolderTypesInverse(typeName: string)
    requires ContentType(typeName).Some?
    ensures FolderType(ContentType(typeName).value) == Some(typeName)
  {
  }

  /**
   * A foldered type asked for without a subfolder is replaced by its folder
   * type (which has no local directory); every other type is kept as is.
   */
  function Substitute(t: TypeQuery): (r: TypeQuery)
    ensures t.subFolder == "" && FolderType(t.name).Some? ==> r == TypeQuery(FolderType(t.name).value, "", None)
    ensures t.subFolder != "" || FolderType(t.name).None? ==> r == t
  {
    if t.subFolder == "" && FolderType(t.name).Some? then TypeQuery(FolderType(t.name).value, "", None) else t
  }

  /** A folder record expands to a nested query for that folder's contents; every other record does not. */
  function Expansion(md: FileProps): (r: Option<TypeQuery>)
    ensures r.Some? <==> ContentType(md.typeName).Some?
    ensures r.Some? ==> r.value == TypeQuery(ContentType(md.typeName).value, md.fullName, None)
  {
    match ContentType(md.typeName)
    case Some(content) => Some(TypeQuery(content, md.fullName, None))
    case None => None
  }

  /**
   * Substitution and expansion undo each other: a foldered type queried
   * without a subfolder is listed through its folder type, and each folder
   * that listing returns is queried again as the original type, now with
   * that folder as its subfolder.
   */
  lemma SubstituteThenExpand(t: TypeQuery, md: FileProps)
    requires t.subFolder == "" && FolderType(t.name).Some?
    requires md.typeName == Substitute(t).name
    ensures Expansion(md) == Some(TypeQuery(t.name, md.fullName, None))
  {
  }

  /** A type that is not foldered, or already has a subfolder, never comes back as a folder to expand. */
  lemma NoExpansionOfPlainTypes(t: TypeQuery, md: FileProps)
    requires t.subFolder != "" || FolderType(t.name).None?
    requires t.name !in {"DocumentFolder", "EmailFolder", "ReportFolder", "DashboardFolder"}
    requires md.typeName == Substitute(t).name
    ensures Expansion(md).None?
  {
  }

  /**
   * A folder whose full name is empty is queried without a subfolder, so
   * the nested query is substituted back into the same folder type.
   */
  lemma EmptyFolderNameListsFoldersAgain(md: FileProps)
    requires ContentType(md.typeName).Some? && md.fullName == ""
    ensures Substitute(Expansion(md).value) == TypeQuery(md.typeName, "", None)
  {
  }

  // ---------------------------------------------------------------- namespace scope

  /**
   * Whether a result survives the namespace filter: everything with `--all`;
   * with `--ns`, only records with a non-empty prefix equal to it ignoring
   * case (a path from a nested listing has no prefix); otherwise only items
   * whose prefix is absent or empty.
   */
  predicate Keep(e: Entry, scope: Scope) {
    if scope.all then true
    else if scope.ns != "" then
      e.File? && e.md.namespacePrefix.Some? && e.md.namespacePrefix.value != ""
      && EqualsIgnoringCase(e.md.namespacePrefix.value, scope.ns)
    else
      e.Path? || e.md.namespacePrefix.None? || e.md.namespacePrefix.value == ""
  }

  function Filter(es: seq<Entry>, scope: Scope): (r: seq<Entry>)
    ensures |r| <= |es|
    ensures forall e :: e in r <==> e in es && Keep(e, scope)
  {
    if es == [] then []
    else
      var init, last := es[..|es| - 1], es[|es| - 1];
      assert es == init + [last];
      Filter(init, scope) + (if Keep(last, scope) then [last] else [])
  }

  /** Under a `--ns` scope no path computed by a nested folder listing survives. */
  lemma NamespaceScopeDropsNested(es: seq<Entry>, scope: Scope)
    requires !scope.all && scope.ns != ""
    ensures forall e :: e in Filter(es, scope) ==> e.File? && EqualsIgnoringCase(e.md.namespacePrefix.value, scope.ns)
  {
  }

  /** Without `--all` or `--ns`, nested paths are kept and namespaced records are dropped. */
  lemma DefaultScopeKeepsUnprefixed(es: seq<Entry>)
    ensures forall e :: e in Filter(es, Scope(false, "")) <==>
      e in es && (e.Path? || e.md.namespacePrefix.GetOr("") == "")
  {
  }

  // ---------------------------------------------------------------- path rewrite

  /**
   * The alternatives of `new RegExp("^(" + names.join("|") + ")\\/")`: the
   * queried names, or the single empty alternative when there are none.
   */
  function Alternatives(types: seq<TypeQuery>): (r: seq<string>)
    ensures types != [] ==> |r| == |types| && forall i :: 0 <= i < |types| ==> r[i] == types[i].name
    ensures types == [] ==> r == [""]
  {
    if types == [] then [""] else seq(|types|, i requires 0 <= i < |types| => types[i].name)
  }

  /** The alternative the anchored regular expression matches: the first name followed by `/` at the start. */
  function FirstPrefix(alts: seq<string>, s: string): (r: Option<string>)
    ensures r.None? <==> forall i :: 0 <= i < |alts| ==> !StartsWith(s, alts[i] + "/")
    ensures r.Some? ==> exists i :: (0 <= i < |alts| && alts[i] == r.value && StartsWith(s, r.value + "/")
      && forall j :: 0 <= j < i ==> !StartsWith(s, alts[j] + "/"))
  {
    if alts == [] then None
    else if StartsWith(s, alts[0] + "/") then Some(alts[0])
    else
      var r := FirstPrefix(alts[1..], s);
      assert forall i :: 1 <= i < |alts| ==> alts[i] == alts[1..][i - 1];
      r
  }

  /** `_.find(types, { name })`: the first queried type with that name. */
  function FindType(types: seq<TypeQuery>, name: string): (r: Option<TypeQuery>)
    ensures r.None? <==> forall i :: 0 <= i < |types| ==> types[i].name != name
    ensures r.Some? ==> r.value in types && r.value.name == name
  {
    if types == [] then None
    else if types[0].name == name then Some(types[0])
    else
      var r := FindType(types[1..], name);
      assert forall i :: 1 <= i < |types| ==> types[i] == types[1..][i - 1];
      r
  }

  /** A missing folder concatenates as the text "undefined". */
  function FolderText(folder: Option<string>): string {
    folder.GetOr("undefined")
  }

  /**
   * The local path of one result. A path from a nested listing is kept. A
   * file name that begins with a queried name and `/` has that prefix
   * replaced by the record's type's folder; any other file name is used as
   * is; either way it is placed under `src/`. A matching record whose type
   * was not queried makes the lookup of its folder throw.
   */
  function PathOf(e: Entry, types: seq<TypeQuery>): (r: Result<string, RetrieveError>)
    ensures e.Path? ==> r == Success(e.path)
    ensures e.File? && r.Success? ==> StartsWith(r.value, "src/")
    ensures e.File? && FirstPrefix(Alternatives(types), e.md.fileName).None? ==> r == Success("src/" + e.md.fileName)
    ensures r.Failure? <==> e.File? && FirstPrefix(Alternatives(types), e.md.fileName).Some?
                            && FindType(types, e.md.typeName).None?
    ensures r.Failure? ==> r.error == TypeNotQueried(e.md.typeName)
    ensures e.File? && FirstPrefix(Alternatives(types), e.md.fileName).Some? && FindType(types, e.md.typeName).Some? ==>
      var n, t := FirstPrefix(Alternatives(types), e.md.fileName).value, FindType(types, e.md.typeName).value;
      r == Success("src/" + ReplaceFirst(e.md.fileName, n + "/", FolderText(t.folder) + "/"))
  {
    match e
    case Path(p) => Success(p)
    case File(md) =>
      match FirstPrefix(Alternatives(types), md.fileName)
      case None => Success("src/" + md.fileName)
      case Some(n) =>
        match FindType(types, md.typeName)
        case None => Failure(TypeNotQueried(md.typeName))
        case Some(t) =>
          ReplaceFirstAtStart(md.fileName, n + "/", FolderText(t.folder) + "/");
          assert "src/" + FolderText(t.folder) + "/" + md.fileName[|n| + 1..]
              == "src/" + ((FolderText(t.folder) + "/") + md.fileName[|n + "/"|..]);
          Success("src/" + FolderText(t.folder) + "/" + md.fileName[|n| + 1..])
  }

  /** Applies `f` to each element in order: every result, or the first failure. */
  function MapResult<A, B, E(==)>(f: A -> Result<B, E>, s: seq<A>): (r: Result<seq<B>, E>)
    ensures r.Success? <==> forall i :: 0 <= i < |s| ==> f(s[i]).Success?
    ensures r.Success? ==> |r.value| == |s| && forall i :: 0 <= i < |s| ==> r.value[i] == f(s[i]).value
    ensures r.Failure? ==> exists i :: (0 <= i < |s| && f(s[i]).Failure? && f(s[i]).error == r.error
      && forall j :: 0 <= j < i ==> f(s[j]).Success?)
  {
    if s == [] then Success([])
    else
      var init, last := s[..|s| - 1], s[|s| - 1];
      assert forall i :: 0 <= i < |init| ==> init[i] == s[i];
      match MapResult(f, init)
      case Failure(e) => Failure(e)
      case Success(bs) =>
        match f(last)
        case Failure(e) => Failure(e)
        case Success(b) => Success(bs + [b])
  }

  /** Once a prefix fails, the whole sequence fails the same way. */
  lemma {:induction false} MapResultFailureSticks<A, B, E>(f: A -> Result<B, E>, s: seq<A>, k: nat)
    requires k <= |s|
    requires MapResult(f, s[..k]).Failure?
    ensures MapResult(f, s) == MapResult(f, s[..k])
    decreases |s|
  {
    if k < |s| {
      var init := s[..|s| - 1];
      assert init[..k] == s[..k];
      MapResultFailureSticks(f, init, k);
    } else {
      assert s[..k] == s;
    }
  }

  /** The `.map` over the filtered results: every path, or the first record whose folder lookup throws. */
  function Rewrite(es: seq<Entry>, types: seq<TypeQuery>): Result<seq<string>, RetrieveError> {
    MapResult(e => PathOf(e, types), es)
  }

  // ---------------------------------------------------------------- flattening

  /** The paths of one nested listing, as entries. */
  function PathEntries(ps: seq<string>): (r: seq<Entry>)
    ensures forall e :: e in r <==> e.Path? && e.path in ps
  {
    if ps == [] then []
    else
      assert ps == [ps[0]] + ps[1..];
      [Path(ps[0])] + PathEntries(ps[1..])
  }

  /** `flattenDeep` then `compact` over the collected items. */
  function Flat(items: seq<Item>): (r: seq<Entry>)
    ensures forall md :: File(md) in r <==> Props(md) in items
    ensures forall e :: e in r && e.Path? ==>
      exists i :: 0 <= i < |items| && items[i].Nested? && items[i].paths.Some? && e.path in items[i].paths.value
    ensures forall i, p :: 0 <= i < |items| && items[i].Nested? && items[i].paths.Some? && p in items[i].paths.value ==>
      Path(p) in r
  {
    if items == [] then []
    else
      var init, last := items[..|items| - 1], items[|items| - 1];
      assert items == init + [last];
      assert forall i :: 0 <= i < |init| ==> init[i] == items[i];
      var tail := match last
        case Props(md) => [File(md)]
        case Nested(None) => []
        case Nested(Some(ps)) => PathEntries(ps);
      Flat(init) + tail
  }

  /** `_(res).compact().flattenDeep()` over the per-group results. */
  function Concat(results: seq<Option<seq<string>>>): (r: seq<string>)
    ensures forall p :: p in r <==> exists i :: 0 <= i < |results| && results[i].Some? && p in results[i].value
  {
    if results == [] then []
    else
      var init, last := results[..|results| - 1], results[|results| - 1];
      assert forall i :: 0 <= i < |init| ==> init[i] == results[i];
      Concat(init) + (if last.Some? then last.value else [])
  }

  predicate NoDuplicates<T(==)>(s: seq<T>) {
    forall i, j :: 0 <= i < j < |s| ==> s[i] != s[j]
  }

  /** `_.uniq`: the first occurrence of each element, in order. */
  function Uniq(s: seq<string>): (r: seq<string>)
    ensures NoDuplicates(r)
    ensures forall x :: x in r <==> x in s
    ensures |r| <= |s|
  {
    if s == [] then []
    else
      var init, last := s[..|s| - 1], s[|s| - 1];
      assert s == init + [last];
      var u := Uniq(init);
      if last in u then u else u + [last]
  }

  /** `_.chunk(s, n)`: consecutive groups of `n`, the last one possibly shorter. */
  function Chunk<T>(s: seq<T>, n: nat): (r: seq<seq<T>>)
    requires n > 0
    ensures Join(r) == s
    ensures forall i :: 0 <= i < |r| ==> 0 < |r[i]| <= n
    ensures forall i :: 0 <= i < |r| - 1 ==> |r[i]| == n
    decreases |s|
  {
    if s == [] then []
    else if |s| <= n then [s]
    else
      var rest := Chunk(s[n..], n);
      assert ([s[..n]] + rest)[1..] == rest;
      assert s == s[..n] + s[n..];
      [s[..n]] + rest
  }

  function Join<T>(ss: seq<seq<T>>): seq<T> {
    if ss == [] then [] else ss[0] + Join(ss[1..])
  }

  /** The number of groups is the number of types divided by the group size, rounded up. */
  lemma {:induction false} ChunkCount<T>(s: seq<T>, n: nat)
    requires n > 0
    ensures |s| <= |Chunk(s, n)| * n < |s| + n
    decreases |s|
  {
    if |s| > n {
      var c := |Chunk(s[n..], n)|;
      ChunkCount(s[n..], n);
      assert |Chunk(s, n)| == c + 1;
      assert |s| - n <= c * n < |s| - n + n;
      assert (c + 1) * n == c * n + n;
    }
  }

  // ---------------------------------------------------------------- the listing recursion

  /**
   * The settled result of the iterator for one group of types: the org's
   * rejection; the result of the first nested listing that fails or a
   * record whose type was not queried; `null` (None) for an empty listing;
   * otherwise the paths of the kept results in listing order. Nested folder
   * listings go at most `fuel` levels deep.
   */
  function Listed(lister: seq<TypeQuery> -> Result<seq<FileProps>, string>, types: seq<TypeQuery>,
                  scope: Scope, fuel: nat): Result<Option<seq<string>>, RetrieveError>
    decreases fuel, 1
  {
    var queried := Sorting.Map(Substitute, types);
    match lister(queried)
    case Failure(msg) => Failure(Remote(msg))
    case Success(listing) =>
      match Expanded(lister, listing, scope, fuel)
      case Failure(e) => Failure(e)
      case Success(items) => Settle(|listing|, items, scope, queried)
  }

  /**
   * The second stage of the iterator, once every nested listing has settled:
   * `null` when the listing was empty, otherwise the collected items
   * flattened, compacted, filtered by scope and turned into paths.
   */
  function Settle(listed: nat, items: seq<Item>, scope: Scope, queried: seq<TypeQuery>)
    : Result<Option<seq<string>>, RetrieveError>
  {
    if listed == 0 then Success(None)
    else
      match Rewrite(Filter(Flat(items), scope), queried)
      case Failure(e) => Failure(e)
      case Success(ps) => Success(Some(ps))
  }

  /** The items collected for a listing: each folder replaced by its nested listing's result. */
  function Expanded(lister: seq<TypeQuery> -> Result<seq<FileProps>, string>, listing: seq<FileProps>,
                    scope: Scope, fuel: nat): Result<seq<Item>, RetrieveError>
    decreases fuel, 0, |listing|
  {
    if listing == [] then Success([])
    else ExpandNext(lister, Expanded(lister, listing[..|listing| - 1], scope, fuel), listing[|listing| - 1], scope, fuel)
  }

  /** One turn of the collection loop: the record itself, or its folder's nested listing. */
  function ExpandNext(lister: seq<TypeQuery> -> Result<seq<FileProps>, string>,
                      acc: Result<seq<Item>, RetrieveError>, md: FileProps, scope: Scope, fuel: nat)
    : Result<seq<Item>, RetrieveError>
    decreases fuel, 0, 0
  {
    match acc
    case Failure(e) => Failure(e)
    case Success(items) =>
      match Expansion(md)
      case None => Success(items + [Props(md)])
      case Some(q) =>
        if fuel == 0 then Failure(TooDeep)
        else
          match Listed(lister, [q], scope, fuel - 1)
          case Failure(e) => Failure(e)
          case Success(nested) => Success(items + [Nested(nested)])
  }

  /** Once a prefix of the listing fails, the whole listing fails the same way. */
  lemma {:induction false} ExpandedFailureSticks(lister: seq<TypeQuery> -> Result<seq<FileProps>, string>,
                                                 listing: seq<FileProps>, k: nat, scope: Scope, fuel: nat)
    requires k <= |listing|
    requires Expanded(lister, listing[..k], scope, fuel).Failure?
    ensures Expanded(lister, listing, scope, fuel) == Expanded(lister, listing[..k], scope, fuel)
    decreases |listing|
  {
    if k < |listing| {
      var init := listing[..|listing| - 1];
      assert init[..k] == listing[..k];
      ExpandedFailureSticks(lister, init, k, scope, fuel);
    } else {
      assert listing[..k] == listing;
    }
  }

  /**
   * The iterator of `getFilePaths` for one group: substitutes folder types,
   * lists them, collects the results with their nested folder listings, then
   * settles the collected items.
   */
  method Iterate(lister: seq<TypeQuery> -> Result<seq<FileProps>, string>, types: seq<TypeQuery>,
                 scope: Scope, fuel: nat) returns (r: Result<Option<seq<string>>, RetrieveError>)
    ensures r == Listed(lister, types, scope, fuel)
    decreases fuel, 1
  {
    var queried := Sorting.Map(Substitute, types);
    var reply := lister(queried);
    if reply.Failure? {
      return Failure(Remote(reply.error));
    }
    var items := CollectItems(lister, reply.value, scope, fuel);
    if items.Failure? {
      return Failure(items.error);
    }
    r := Settle(|reply.value|, items.value, scope, queried);
  }

  /**
   * The `promises.push` loop: each listed record is kept as it is, and each
   * folder is replaced by the settled result of listing its contents.
   */
  method CollectItems(lister: seq<TypeQuery> -> Result<seq<FileProps>, string>, listing: seq<FileProps>,
                      scope: Scope, fuel: nat) returns (r: Result<seq<Item>, RetrieveError>)
    ensures r == Expanded(lister, listing, scope, fuel)
    decreases fuel, 0
  {
    var items: seq<Item> := [];
    var i := 0;
    while i < |listing|
      invariant 0 <= i <= |listing|
      invariant Expanded(lister, listing[..i], scope, fuel) == Success(items)
    {
      var md := listing[i];
      assert listing[..i + 1][..i] == listing[..i] && listing[..i + 1][i] == md;
      var q := Expansion(md);
      if q.None? {
        items := items + [Props(md)];
      } else if fuel == 0 {
        ExpandedFailureSticks(lister, listing, i + 1, scope, fuel);
        return Failure(TooDeep);
      } else {
        var nested := Iterate(lister, [q.value], scope, fuel - 1);
        if nested.Failure? {
          ExpandedFailureSticks(lister, listing, i + 1, scope, fuel);
          return Failure(nested.error);
        }
        items := items + [Nested(nested.value)];
      }
      i := i + 1;
    }
    assert listing[..i] == listing;
    r := Success(items);
  }

  predicate UnderSrc(ps: seq<string>) {
    forall i :: 0 <= i < |ps| ==> StartsWith(ps[i], "src/")
  }

  predicate ItemsUnderSrc(items: seq<Item>) {
    forall i :: 0 <= i < |items| ==> items[i].Nested? && items[i].paths.Some? ==> UnderSrc(items[i].paths.value)
  }

  /** Settling items whose nested paths lie under `src/` gives paths under `src/`. */
  lemma SettleUnderSrc(listed: nat, items: seq<Item>, scope: Scope, queried: seq<TypeQuery>)
    requires ItemsUnderSrc(items)
    ensures Settle(listed, items, scope, queried).Success? && Settle(listed, items, scope, queried).value.Some? ==>
      UnderSrc(Settle(listed, items, scope, queried).value.value)
  {
    var es := Filter(Flat(items), scope);
    var rw := Rewrite(es, queried);
    if listed > 0 && rw.Success? {
      forall i | 0 <= i < |rw.value| ensures StartsWith(rw.value[i], "src/") {
        assert rw.value[i] == PathOf(es[i], queried).value;
        assert es[i] in Flat(items);
      }
    }
  }

  /** Every path a listing settles with lies under `src/`, however deep the folders nest. */
  lemma {:induction false} ListedUnderSrc(lister: seq<TypeQuery> -> Result<seq<FileProps>, string>,
                                          types: seq<TypeQuery>, scope: Scope, fuel: nat)
    ensures Listed(lister, types, scope, fuel).Success? && Listed(lister, types, scope, fuel).value.Some? ==>
      UnderSrc(Listed(lister, types, scope, fuel).value.value)
    decreases fuel, 1
  {
    var queried := Sorting.Map(Substitute, types);
    var reply := lister(queried);
    if reply.Success? {
      ExpandedUnderSrc(lister, reply.value, scope, fuel);
      var ex := Expanded(lister, reply.value, scope, fuel);
      if ex.Success? {
        SettleUnderSrc(|reply.value|, ex.value, scope, queried);
      }
    }
  }

  lemma {:induction false} ExpandedUnderSrc(lister: seq<TypeQuery> -> Result<seq<FileProps>, string>,
                                            listing: seq<FileProps>, scope: Scope, fuel: nat)
    ensures Expanded(lister, listing, scope, fuel).Success? ==> ItemsUnderSrc(Expanded(lister, listing, scope, fuel).value)
    decreases fuel, 0, |listing|
  {
    if listing != [] {
      var acc := Expanded(lister, listing[..|listing| - 1], scope, fuel);
      ExpandedUnderSrc(lister, listing[..|listing| - 1], scope, fuel);
      var md := listing[|listing| - 1];
      var q := Expansion(md);
      if acc.Success? && q.Some? && fuel > 0 {
        ListedUnderSrc(lister, [q.value], scope, fuel - 1);
      }
    }
  }

  // ---------------------------------------------------------------- getFilePaths

  /** The per-group results of `async.mapLimit`, in group order, or the first group's failure. */
  function Gathered(lister: seq<TypeQuery> -> Result<seq<FileProps>, string>, groups: seq<seq<TypeQuery>>,
                    scope: Scope, fuel: nat): Result<seq<Option<seq<string>>>, RetrieveError>
  {
    MapResult(g => Listed(lister, g, scope, fuel), groups)
  }

  /** `getFilePaths`: every group's paths, compacted, flattened and de-duplicated. */
  function FilePaths(lister: seq<TypeQuery> -> Result<seq<FileProps>, string>, groups: seq<seq<TypeQuery>>,
                     scope: Scope, fuel: nat): Result<seq<string>, RetrieveError>
  {
    match Gathered(lister, groups, scope, fuel)
    case Failure(e) => Failure(e)
    case Success(results) => Success(Uniq(Concat(results)))
  }

  /**
   * What `getFilePaths` resolves with: a path list without duplicates, lying
   * under `src/`, holding exactly the paths some group's listing produced;
   * it rejects exactly when some group's listing does.
   */
  lemma FilePathsCorrect(lister: seq<TypeQuery> -> Result<seq<FileProps>, string>, groups: seq<seq<TypeQuery>>,
                         scope: Scope, fuel: nat)
    ensures FilePaths(lister, groups, scope, fuel).Failure? <==>
      exists i :: 0 <= i < |groups| && Listed(lister, groups[i], scope, fuel).Failure?
    ensures FilePaths(lister, groups, scope, fuel).Success? ==>
      var ps := FilePaths(lister, groups, scope, fuel).value;
      && NoDuplicates(ps)
      && UnderSrc(ps)
      && forall p :: p in ps <==> exists i :: 0 <= i < |groups| && GroupPath(lister, groups[i], scope, fuel, p)
  {
    var g := Gathered(lister, groups, scope, fuel);
    if g.Success? {
      var ps := Uniq(Concat(g.value));
      forall i | 0 <= i < |groups| ensures Listed(lister, groups[i], scope, fuel).value.Some? ==>
        UnderSrc(Listed(lister, groups[i], scope, fuel).value.value)
      {
        ListedUnderSrc(lister, groups[i], scope, fuel);
      }
      forall k | 0 <= k < |ps| ensures StartsWith(ps[k], "src/") {
        assert ps[k] in Concat(g.value);
        var i :| 0 <= i < |g.value| && g.value[i].Some? && ps[k] in g.value[i].value;
        assert Listed(lister, groups[i], scope, fuel) == Success(g.value[i]);
      }
    }
  }

  /** `p` is among the paths the listing of `group` settles with. */
  predicate GroupPath(lister: seq<TypeQuery> -> Result<seq<FileProps>, string>, group: seq<TypeQuery>,
                      scope: Scope, fuel: nat, p: string)
  {
    var l := Listed(lister, group, scope, fuel);
    l.Success? && l.value.Some? && p in l.value.value
  }

  /** `getFilePaths`: runs the iterator over the groups in order; the first failure rejects. */
  method GetFilePaths(lister: seq<TypeQuery> -> Result<seq<FileProps>, string>, groups: seq<seq<TypeQuery>>,
                      scope: Scope, fuel: nat) returns (r: Result<seq<string>, RetrieveError>)
    ensures r == FilePaths(lister, groups, scope, fuel)
  {
    var results: seq<Option<seq<string>>> := [];
    var i := 0;
    while i < |groups|
      invariant 0 <= i <= |groups|
      invariant Gathered(lister, groups[..i], scope, fuel) == Success(results)
    {
      assert groups[..i + 1][..i] == groups[..i] && groups[..i + 1][i] == groups[i];
      var res := Iterate(lister, groups[i], scope, fuel);
      if res.Failure? {
        MapResultFailureSticks(g => Listed(lister, g, scope, fuel), groups, i + 1);
        return Failure(res.error);
      }
      results := results + [res.value];
      i := i + 1;
    }
    assert groups[..i] == groups;
    r := Success(Uniq(Concat(results)));
  }

  // ---------------------------------------------------------------- run

  /** The options of `dmc retrieve`; the command fills in the default globs in place. */
  class RetrieveOptions {
    var globs: seq<string>
    const scope: Scope
    const replace: bool

    constructor(globs: seq<string>, scope: Scope, replace: bool)
      ensures this.globs == globs && this.scope == scope && this.replace == replace
    {
      this.globs := globs;
      this.scope := scope;
      this.replace := replace;
    }

    /** Missing or empty globs become the single glob `src/**/*`. */
    method DefaultGlobs()
      modifies this
      ensures globs == (if old(globs) == [] then [DefaultGlob] else old(globs))
      ensures globs != []
    {
      if globs == [] {
        globs := [DefaultGlob];
      }
    }
  }

  /**
   * `run` up to the retrieve request: defaults the globs, groups the types
   * they match by three, lists the paths, and narrows them to the globs and
   * ignore lines; an empty list before or after the narrowing rejects. The
   * result is the list of paths added to the retrieve request.
   */
  method Run(opts: RetrieveOptions, typesFromGlobs: seq<string> -> seq<TypeQuery>,
             lister: seq<TypeQuery> -> Result<seq<FileProps>, string>,
             filterOnGlobs: (seq<string>, seq<string>) -> seq<string>, fuel: nat)
    returns (r: Result<seq<string>, RetrieveError>)
    modifies opts
    ensures opts.globs == (if old(opts.globs) == [] then [DefaultGlob] else old(opts.globs))
    ensures var fpaths := FilePaths(lister, Chunk(typesFromGlobs(opts.globs), GroupSize), opts.scope, fuel);
      && (fpaths.Failure? ==> r == Failure(fpaths.error))
      && (fpaths.Success? && fpaths.value == [] ==> r == Failure(Reason(NoFilesMessage)))
      && (fpaths.Success? && fpaths.value != [] ==>
            var filtered := filterOnGlobs(fpaths.value, opts.globs);
            r == if filtered == [] then Failure(Reason(NoFilesMessage)) else Success(filtered))
  {
    opts.DefaultGlobs();
    var grouped := Chunk(typesFromGlobs(opts.globs), GroupSize);
    var fpaths := GetFilePaths(lister, grouped, opts.scope, fuel);
    if fpaths.Failure? {
      return Failure(fpaths.error);
    }
    if fpaths.value == [] {
      return Failure(Reason(NoFilesMessage));
    }
    var filtered := filterOnGlobs(fpaths.value, opts.globs);
    if filtered == [] {
      return Failure(Reason(NoFilesMessage));
    }
    r := Success(filtered);
  }
}
