/**
 * A model of the Go package `vswhere`: it turns query options into the
 * argument vector of Microsoft's vswhere.exe locator, runs the locator and
 * classifies what came back.  Executing the process and decoding its JSON
 * are outside the model: the process is a parameter (a function from the
 * argument vector to a `ProcessOutcome`), and decoding is already folded
 * into that outcome.
 */
module VsWhere {

  // ---------------------------------------------------------------------
  // Records
  // ---------------------------------------------------------------------

  /** One installation of Visual Studio as vswhere reports it.  Only the
      fields that the package itself looks at, or that identify the
      instance, are kept; the rest is pass-through data. */
  datatype Installation = Installation(
    instanceId: string,
    installationName: string,
    installationPath: string,
    installationVersion: string,
    productId: string,
    displayName: string)

  /** The errors the package returns, by the way each one is made. */
  datatype Error =
    | ToolFailed(stderr: string)   // vswhere exited with a non-zero status
    | ExecFailed(cause: string)    // the process could not be run at all
    | DecodeFailed(cause: string)  // standard output was not the expected JSON
    | NotFound(path: string)       // Get found no installation at the path

  datatype Result<T> = Ok(value: T) | Err(error: Error)

  /** The text an error carries, verbatim. */
  function Detail(e: Error): string {
    match e
    case ToolFailed(stderr) => stderr
    case ExecFailed(cause) => cause
    case DecodeFailed(cause) => cause
    case NotFound(path) => path
  }

  /** The message of the Go error value; every message ends with the
      error's detail, unaltered. */
  function Message(e: Error): (m: string)
    ensures |Detail(e)| <= |m| && m[|m| - |Detail(e)|..] == Detail(e)
  {
    match e
    case ToolFailed(stderr) => "vswhere failed: " + stderr
    case ExecFailed(cause) => "vswhere failed: " + cause
    case DecodeFailed(cause) => "failed parsing output of vswhere: " + cause
    case NotFound(path) => "no install at path " + path
  }

  // ---------------------------------------------------------------------
  // Query options
  // ---------------------------------------------------------------------

  /** The Go struct `searchOptions`.  Go's `requires` field is called
      `requirements` here, because `requires` is a Dafny keyword. */
  datatype SearchOptions = SearchOptions(
    all: bool,
    prerelease: bool,
    products: seq<string>,
    requirements: seq<string>,
    requiresAny: bool,
    version: string,
    latest: bool,
    legacy: bool)

  /** The zero value of `searchOptions`, where every search starts. */
  const ZeroValue := SearchOptions(false, false, [], [], false, "", false, false)

  /** The closures returned by the exported `With*` functions, one
      constructor per function, carrying the argument it captured. */
  datatype Option =
    | WithAll(all: bool)
    | WithPrerelease(prerelease: bool)
    | WithProducts(products: seq<string>)
    | WithRequires(requirements: seq<string>)
    | WithRequiresAny(requiresAny: bool)
    | WithVersion(versionRange: string)
    | WithLatest(latest: bool)
    | WithLegacy(legacy: bool)

  /** The fields of `searchOptions`, in declaration order. */
  datatype Field = All | Prerelease | Products | Requires | RequiresAny | Version | Latest | Legacy

  /** A field's value, whatever its Go type. */
  datatype Value = Flag(on: bool) | Ids(ids: seq<string>) | Text(text: string)

  function FieldValue(so: SearchOptions, f: Field): Value {
    match f
    case All => Flag(so.all)
    case Prerelease => Flag(so.prerelease)
    case Products => Ids(so.products)
    case Requires => Ids(so.requirements)
    case RequiresAny => Flag(so.requiresAny)
    case Version => Text(so.version)
    case Latest => Flag(so.latest)
    case Legacy => Flag(so.legacy)
  }

  /** `a` and `b` hold the same value in every field other than `f`. */
  predicate AgreeExcept(a: SearchOptions, b: SearchOptions, f: Field) {
    && (f == All || a.all == b.all)
    && (f == Prerelease || a.prerelease == b.prerelease)
    && (f == Products || a.products == b.products)
    && (f == Requires || a.requirements == b.requirements)
    && (f == RequiresAny || a.requiresAny == b.requiresAny)
    && (f == Version || a.version == b.version)
    && (f == Latest || a.latest == b.latest)
    && (f == Legacy || a.legacy == b.legacy)
  }

  /** The field an option writes. */
  function Target(o: Option): Field {
    match o
    case WithAll(_) => All
    case WithPrerelease(_) => Prerelease
    case WithProducts(_) => Products
    case WithRequires(_) => Requires
    case WithRequiresAny(_) => RequiresAny
    case WithVersion(_) => Version
    case WithLatest(_) => Latest
    case WithLegacy(_) => Legacy
  }

  /** The value an option writes into its field. */
  function Setting(o: Option): Value {
    match o
    case WithAll(b) => Flag(b)
    case WithPrerelease(b) => Flag(b)
    case WithProducts(ids) => Ids(ids)
    case WithRequires(ids) => Ids(ids)
    case WithRequiresAny(b) => Flag(b)
    case WithVersion(s) => Text(s)
    case WithLatest(b) => Flag(b)
    case WithLegacy(b) => Flag(b)
  }

  /** Calling an option closure on `&so`: it overwrites its own field with
      the value it captured and leaves every other field as it was. */
  function Apply(o: Option, so: SearchOptions): (r: SearchOptions)
    ensures FieldValue(r, Target(o)) == Setting(o)
    ensures AgreeExcept(r, so, Target(o))
  {
    SearchOptions(
      all := if o.WithAll? then o.all else so.all,
      prerelease := if o.WithPrerelease? then o.prerelease else so.prerelease,
      products := if o.WithProducts? then o.products else so.products,
      requirements := if o.WithRequires? then o.requirements else so.requirements,
      requiresAny := if o.WithRequiresAny? then o.requiresAny else so.requiresAny,
      version := if o.WithVersion? then o.versionRange else so.version,
      latest := if o.WithLatest? then o.latest else so.latest,
      legacy := if o.WithLegacy? then o.legacy else so.legacy)
  }

  /** The record after applying `options` left to right to the zero value. */
  function ApplyAll(options: seq<Option>): SearchOptions {
    if options == [] then ZeroValue
    else Apply(options[|options| - 1], ApplyAll(options[..|options| - 1]))
  }

  // ---------------------------------------------------------------------
  // Rendering the argument vector
  // ---------------------------------------------------------------------

  /** `[flag]` when `on` holds, nothing otherwise. */
  function FlagIf(on: bool, flag: string): seq<string> {
    if on then [flag] else []
  }

  /** `flag` followed by the values, when there is at least one value. */
  function ListFlag(flag: string, values: seq<string>): seq<string> {
    if |values| > 0 then [flag] + values else []
  }

  /** `-version` and the range, when the range is not empty. */
  function VersionArg(range: string): seq<string> {
    if range != "" then ["-version", range] else []
  }

  /** The flags `Find` emits for a record, in one fixed order, each only
      when its field enables it, list values and the version range verbatim
      after their flag. */
  function FlagsPart(so: SearchOptions): seq<string> {
    FlagIf(so.all, "-all")
    + FlagIf(so.prerelease, "-prerelease")
    + ListFlag("-products", so.products)
    + ListFlag("-requires", so.requirements)
    + FlagIf(so.requiresAny, "-requiresAny")
    + VersionArg(so.version)
    + FlagIf(so.latest, "-latest")
    + FlagIf(so.legacy, "-legacy")
  }

  /** The argument vector `Find` hands to vswhere.exe for a record: its
      flags, then `-format json`. */
  function Render(so: SearchOptions): seq<string> {
    FlagsPart(so) + ["-format", "json"]
  }

  /** The fixed vector `Get` hands to vswhere.exe. */
  function PathArgs(path: string): (args: seq<string>)
    ensures |args| == 4 && args[0] == "-path" && args[1] == path && args[2..] == ["-format", "json"]
  {
    ["-path", path, "-format", "json"]
  }

  // ---------------------------------------------------------------------
  // Running vswhere
  // ---------------------------------------------------------------------

  /** What decoding vswhere's standard output produced. */
  datatype DecodeOutcome = Decoded(installs: seq<Installation>) | Malformed(cause: string)

  /** What running vswhere.exe produced, as far as the package can see. */
  datatype ProcessOutcome =
    | ExitError(stderr: string)        // the process ran and exited non-zero
    | RunError(cause: string)          // any other failure to run it
    | Exited(output: DecodeOutcome)    // exit status zero; standard output decoded

  /** The classification `run` performs once the process is over: records
      are returned only when the process exited cleanly and its output
      decoded, and then exactly the decoded records; each failure keeps the
      text that explains it. */
  function Run(outcome: ProcessOutcome): (r: Result<seq<Installation>>)
    ensures r.Ok? <==> outcome.Exited? && outcome.output.Decoded?
    ensures r.Ok? ==> r.value == outcome.output.installs
    ensures outcome.ExitError? ==> r == Err(ToolFailed(outcome.stderr))
    ensures outcome.RunError? ==> r == Err(ExecFailed(outcome.cause))
    ensures outcome.Exited? && outcome.output.Malformed? ==> r == Err(DecodeFailed(outcome.output.cause))
  {
    match outcome
    case ExitError(stderr) => Err(ToolFailed(stderr))
    case RunError(cause) => Err(ExecFailed(cause))
    case Exited(Malformed(cause)) => Err(DecodeFailed(cause))
    case Exited(Decoded(installs)) => Ok(installs)
  }

  /** One `if cond { args = append(args, flag) }` step of `Find`. */
  method AppendFlag(args: seq<string>, on: bool, flag: string) returns (grown: seq<string>)
    ensures grown == args + FlagIf(on, flag)
  {
    grown := args;
    if on {
      grown := grown + [flag];
    }
  }

  /** The `-products` / `-requires` step of `Find`: the flag and then the
      values, only when there are values. */
  method AppendList(args: seq<string>, flag: string, values: seq<string>) returns (grown: seq<string>)
    ensures grown == args + ListFlag(flag, values)
  {
    grown := args;
    if |values| > 0 {
      grown := grown + [flag];
      grown := grown + values;
    }
  }

  /** The `-version` step of `Find`. */
  method AppendVersion(args: seq<string>, range: string) returns (grown: seq<string>)
    ensures grown == args + VersionArg(range)
  {
    grown := args;
    if range != "" {
      grown := grown + ["-version", range];
    }
  }

  /** The second half of `Find`: the argument vector grown step by step,
      flags in their fixed order and `-format json` last. */
  method BuildArgs(searchOpts: SearchOptions) returns (args: seq<string>)
    ensures args == Render(searchOpts)
  {
    args := AppendFlag([], searchOpts.all, "-all");
    assert args == FlagIf(searchOpts.all, "-all");
    args := AppendFlag(args, searchOpts.prerelease, "-prerelease");
    args := AppendList(args, "-products", searchOpts.products);
    args := AppendList(args, "-requires", searchOpts.requirements);
    args := AppendFlag(args, searchOpts.requiresAny, "-requiresAny");
    args := AppendVersion(args, searchOpts.version);
    args := AppendFlag(args, searchOpts.latest, "-latest");
    args := AppendFlag(args, searchOpts.legacy, "-legacy");
    args := args + ["-format", "json"];
  }

  /** `Find`: apply the options to a zero record one by one, grow the
      argument vector flag by flag, and run vswhere with it. */
  method Find(options: seq<Option>, vswhere: seq<string> -> ProcessOutcome)
    returns (r: Result<seq<Installation>>)
    ensures r == Run(vswhere(Render(ApplyAll(options))))
  {
    var searchOpts := ZeroValue;
    var i := 0;
    while i < |options|
      invariant i <= |options|
      invariant searchOpts == ApplyAll(options[..i])
    {
      assert options[..i + 1][..i] == options[..i];
      searchOpts := Apply(options[i], searchOpts);
      i := i + 1;
    }
    assert options[..i] == options;

    var args := BuildArgs(searchOpts);
    r := Run(vswhere(args));
  }

  /** `Get`: query vswhere for one path.  Errors from the run come back
      unchanged, an empty answer is a `NotFound` naming the path, and
      otherwise the first record is the result. */
  function Get(path: string, vswhere: seq<string> -> ProcessOutcome): (r: Result<Installation>)
    ensures var found := Run(vswhere(["-path", path, "-format", "json"]));
      && (found.Err? ==> r == Err(found.error))
      && (found.Ok? && |found.value| == 0 ==> r == Err(NotFound(path)))
      && (found.Ok? && |found.value| > 0 ==> r == Ok(found.value[0]))
  {
    match Run(vswhere(PathArgs(path)))
    case Err(e) => Err(e)
    case Ok(installs) =>
      if |installs| == 0 then Err(NotFound(path)) else Ok(installs[0])
  }
}
