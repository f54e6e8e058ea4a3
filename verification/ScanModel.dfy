/** The bounded bundle scan (bundles/validate.py:531-781): the file system it meets, which may answer
    in any way at any call, and what the walk does with the answers. */
module ScanModel {
  import opened JsonModel
  import opened TextEncoding

  const MAX_FILE_BYTES := 512 * 1024
  const MAX_FILES := 400
  const MAX_ENTRIES := 4_000
  const MAX_TOTAL_BYTES := 4 * 1024 * 1024
  const MAX_DEPTH := 32
  const READ_CHUNK := 64 * 1024

  // ---- what the file system answers ----

  datatype Kind = Regular | Directory | Symlink | Other

  datatype Stat = Stat(kind: Kind, dev: int, ino: int, size: nat, mtime: int) {
    predicate SameObject(s: Stat) { dev == s.dev && ino == s.ino }
  }

  /** One `os.read`: some bytes (none at the end of the file), or an OSError. */
  datatype Answer = Piece(bytes: seq<Byte>) | Broken

  /** An open that is refused, or a descriptor whose `fstat` may fail, and what it then yields. */
  datatype FileOpening =
    | FileRefused
    | FileUnknown
    | FileOpened(stat: Stat, answers: seq<Answer>, after: Option<Stat>)

  datatype DirOpening =
    | DirRefused
    | DirUnknown
    | DirOpened(dirStat: Stat, listing: Listing)

  /** An entry of a listing: its dirent type says directory or file, or asking for it fails. */
  datatype Entry = Entry(name: string, typed: Option<bool>, info: Option<Stat>, asDir: DirOpening, asFile: FileOpening)

  /** `breaks`: the iterator raises after its last entry. */
  datatype Listing = Unlistable | Listing(entries: seq<Entry>, breaks: bool)

  datatype Root = Unsupported | Unpinned | Pinned(listing: Listing)

  // ---- the state of a scan ----

  datatype ScanFile = ScanFile(relative: string, payload: seq<Byte>, sizeAtOpen: nat)

  datatype Why =
    | NotReadable | ChangedType | NotRegular | NotADirectory | ChangedOnOpen | OverFileBudget | NotOpened
    | ReadFailed | NotCheckedAfter | Replaced | ChangedOnRead | BudgetMidFile

  datatype HaltReason =
    | NotHalted | DepthLimit | CannotList | EntryBudget | ListingBroke | FileBudget | ReadBudget
    | NoSupport | NotPinned

  datatype Failure = Failure(relative: string, why: Why)

  datatype Scan = Scan(
    files: seq<ScanFile>,
    entries: nat,
    bytesRead: nat,
    budget: int,
    symlinksSkipped: nat,
    incomplete: bool,
    reason: HaltReason,
    failures: seq<Failure>,
    stop: bool)
  {
    function Fail(relative: string, why: Why): Scan {
      this.(failures := failures + [Failure(relative, why)], incomplete := true)
    }

    function Halt(why: HaltReason): Scan { this.(incomplete := true, reason := why, stop := true) }

    function SkipLink(): Scan { this.(symlinksSkipped := symlinksSkipped + 1) }

    function Charge(n: nat): Scan { this.(bytesRead := bytesRead + n, budget := budget - n) }

    predicate Complete() { !incomplete && failures == [] }
  }

  const EMPTY: Scan := Scan([], 0, 0, 0, 0, false, NotHalted, [], false)

  function Min(a: int, b: int): int { if a <= b then a else b }

  predicate Pruned(name: string) {
    (name != "" && name[0] == '.')
    || name in {"__pycache__", "node_modules", ".git", ".venv", ".mypy_cache", ".ruff_cache"}
  }

  // ---- the walk ----

  /** `_read_bounded`: what was read, and whether a read raised. The system never returns more than
      was asked for. */
  function Read(answers: seq<Answer>, remaining: nat): (r: (seq<Byte>, bool))
    ensures |r.0| <= remaining
    decreases |answers|
  {
    if remaining == 0 || answers == [] then ([], false)
    else
      match answers[0]
      case Broken => ([], true)
      case Piece(bytes) =>
        var piece := bytes[..Min(|bytes|, Min(remaining, READ_CHUNK))];
        if piece == [] then ([], false)
        else
          var (rest, broken) := Read(answers[1..], remaining - |piece|);
          (piece + rest, broken)
  }

  /** The second element: an OSError escaped to the enclosing directory. */
  function CollectFile(e: Entry, info: Stat, relative: string, s: Scan): (Scan, bool) {
    if info.size > MAX_FILE_BYTES then (s.Fail(relative, OverFileBudget), false)
    else if |s.files| >= MAX_FILES then (s.Halt(FileBudget), false)
    else if s.budget <= 0 then (s.Halt(ReadBudget), false)
    else
      match e.asFile
      case FileRefused => (s.Fail(relative, NotOpened), false)
      case FileUnknown => (s, true)
      case FileOpened(found, answers, after) =>
        if !found.kind.Regular? || !found.SameObject(info) then (s.Fail(relative, ChangedOnOpen), false)
        else
          var limit := Min(MAX_FILE_BYTES, s.budget);
          var (payload, broken) := Read(answers, limit);
          (AfterRead(s.Charge(|payload|), info, relative, payload, broken, after, limit), false)
  }

  function AfterRead(s: Scan, info: Stat, relative: string, payload: seq<Byte>, broken: bool, after: Option<Stat>,
                     limit: nat)
    : Scan
  {
    if broken then s.Fail(relative, ReadFailed)
    else if after.None? then s.Fail(relative, NotCheckedAfter)
    else if !after.value.SameObject(info) then s.Fail(relative, Replaced)
    else if after.value.size != info.size || after.value.mtime != info.mtime then s.Fail(relative, ChangedOnRead)
    else if |payload| != info.size then s.Fail(relative, ChangedOnRead)
    else if |payload| == limit && info.size > limit then s.Fail(relative, BudgetMidFile)
    else s.(files := s.files + [ScanFile(relative, payload, info.size)])
  }

  function Descend(e: Entry, info: Stat, relative: string, depth: nat, s: Scan): (Scan, bool)
    decreases e, 0
  {
    match e.asDir
    case DirRefused => (s.SkipLink().Fail(relative, NotADirectory), false)
    case DirUnknown => (s, true)
    case DirOpened(found, listing) =>
      if !found.kind.Directory? || !found.SameObject(info) then (s.SkipLink().Fail(relative, ChangedOnOpen), false)
      else (Walk(listing, relative + "/", depth + 1, s), false)
  }

  /** One entry that is within the entry budget. */
  function Visit(e: Entry, prefix: string, depth: nat, s: Scan): (Scan, bool)
    decreases e, 1
  {
    if Pruned(e.name) then (s, false)
    else
      var relative := prefix + e.name;
      if e.typed.None? then (s, true)
      else if e.info.None? then (s.Fail(relative, NotReadable), false)
      else
        match e.info.value.kind
        case Symlink => (if e.typed.value then s.SkipLink().Fail(relative, ChangedType) else s.SkipLink(), false)
        case Directory => Descend(e, e.info.value, relative, depth, s)
        case Other => (s.Fail(relative, NotRegular), false)
        case Regular => CollectFile(e, e.info.value, relative, s)
  }

  function WalkEntries(entries: seq<Entry>, breaks: bool, prefix: string, depth: nat, s: Scan): Scan
    decreases entries
  {
    if entries == [] then if breaks then s.Halt(ListingBroke) else s
    else if s.stop then s
    else
      var counted := s.(entries := s.entries + 1);
      if counted.entries > MAX_ENTRIES then counted.Halt(EntryBudget)
      else
        var (t, raised) := Visit(entries[0], prefix, depth, counted);
        if raised then t.Halt(ListingBroke) else WalkEntries(entries[1..], breaks, prefix, depth, t)
  }

  function Walk(listing: Listing, prefix: string, depth: nat, s: Scan): Scan
    decreases listing
  {
    if s.stop then s
    else if depth > MAX_DEPTH then s.Halt(DepthLimit)
    else
      match listing
      case Unlistable => s.Halt(CannotList)
      case Listing(entries, breaks) => WalkEntries(entries, breaks, prefix, depth, s)
  }

  // ---- paths in order ----

  /** The host language's order on strings: by code point, a prefix first. */
  predicate Before(a: string, b: string) {
    if b == "" then false
    else if a == "" then true
    else if a[0] != b[0] then a[0] < b[0]
    else Before(a[1..], b[1..])
  }

  /** `list.sort` by path, which keeps the order of equal paths. */
  function Insert(file: ScanFile, sorted: seq<ScanFile>): seq<ScanFile> {
    if sorted == [] then [file]
    else if Before(file.relative, sorted[|sorted| - 1].relative) then
      Insert(file, sorted[..|sorted| - 1]) + [sorted[|sorted| - 1]]
    else sorted + [file]
  }

  function SortByPath(files: seq<ScanFile>): seq<ScanFile> {
    if files == [] then [] else Insert(files[|files| - 1], SortByPath(files[..|files| - 1]))
  }

  function ScanBundle(root: Root): Scan {
    match root
    case Unsupported => EMPTY.(incomplete := true, reason := NoSupport)
    case Unpinned => EMPTY.(incomplete := true, reason := NotPinned)
    case Pinned(listing) =>
      var s := Walk(listing, "", 0, EMPTY.(budget := MAX_TOTAL_BYTES));
      s.(files := SortByPath(s.files))
  }
}
