/**
 * What the argument vector of `Find` looks like: it always ends in
 * `-format json`, each flag is present exactly when its field enables it,
 * the flags come in one fixed order whatever the order of the options,
 * and list values and the version range follow their flag verbatim.
 */
module RenderLemmas {
  import opened VsWhere
  import opened OptionLemmas

  // ---------------------------------------------------------------------
  // Flags and values
  // ---------------------------------------------------------------------

  /** The command-line flag for a field. */
  function FlagName(f: Field): string {
    match f
    case All => "-all"
    case Prerelease => "-prerelease"
    case Products => "-products"
    case Requires => "-requires"
    case RequiresAny => "-requiresAny"
    case Version => "-version"
    case Latest => "-latest"
    case Legacy => "-legacy"
  }

  /** A word that `Find` uses as a flag. */
  predicate IsKeyword(s: string) {
    s == "-all" || s == "-prerelease" || s == "-products" || s == "-requires"
    || s == "-requiresAny" || s == "-version" || s == "-latest" || s == "-legacy"
    || s == "-format"
  }

  /** Whether a record makes `Find` emit a field's flag: a boolean when it
      is true, a list when it is not empty, the version when it is not the
      empty string. */
  predicate Enabled(so: SearchOptions, f: Field) {
    match f
    case All => so.all
    case Prerelease => so.prerelease
    case Products => |so.products| > 0
    case Requires => |so.requirements| > 0
    case RequiresAny => so.requiresAny
    case Version => so.version != ""
    case Latest => so.latest
    case Legacy => so.legacy
  }

  /** No value in the record is spelled like a flag.  Values go into the
      vector verbatim, so only then does every occurrence of a flag's
      spelling stand for that flag. */
  predicate WellFormed(so: SearchOptions) {
    && (forall i :: 0 <= i < |so.products| ==> !IsKeyword(so.products[i]))
    && (forall i :: 0 <= i < |so.requirements| ==> !IsKeyword(so.requirements[i]))
    && !IsKeyword(so.version)
  }

  /** The flags of a vector, in the order they occur. */
  function Keywords(args: seq<string>): seq<string> {
    if args == [] then []
    else (if IsKeyword(args[0]) then [args[0]] else []) + Keywords(args[1..])
  }

  // ---------------------------------------------------------------------
  // Facts about sequences
  // ---------------------------------------------------------------------

  lemma SuffixOfAppend(a: seq<string>, b: seq<string>)
    ensures (a + b)[|a|..] == b
  {
  }

  lemma {:induction false} KeywordsAppend(a: seq<string>, b: seq<string>)
    ensures Keywords(a + b) == Keywords(a) + Keywords(b)
  {
    if a == [] {
      assert a + b == b;
    } else {
      assert (a + b)[0] == a[0] && (a + b)[1..] == a[1..] + b;
      KeywordsAppend(a[1..], b);
    }
  }

  /** `KeywordsAppend` across the eight pieces before `-format`. */
  lemma KeywordsOfEight(s1: seq<string>, s2: seq<string>, s3: seq<string>, s4: seq<string>,
                        s5: seq<string>, s6: seq<string>, s7: seq<string>, s8: seq<string>,
                        k1: seq<string>, k2: seq<string>, k3: seq<string>, k4: seq<string>,
                        k5: seq<string>, k6: seq<string>, k7: seq<string>, k8: seq<string>)
    requires Keywords(s1) == k1 && Keywords(s2) == k2 && Keywords(s3) == k3 && Keywords(s4) == k4
    requires Keywords(s5) == k5 && Keywords(s6) == k6 && Keywords(s7) == k7 && Keywords(s8) == k8
    ensures Keywords(s1 + s2 + s3 + s4 + s5 + s6 + s7 + s8)
      == k1 + k2 + k3 + k4 + k5 + k6 + k7 + k8
  {
    KeywordsAppend(s1, s2);
    KeywordsAppend(s1 + s2, s3);
    KeywordsAppend(s1 + s2 + s3, s4);
    KeywordsAppend(s1 + s2 + s3 + s4, s5);
    KeywordsAppend(s1 + s2 + s3 + s4 + s5, s6);
    KeywordsAppend(s1 + s2 + s3 + s4 + s5 + s6, s7);
    KeywordsAppend(s1 + s2 + s3 + s4 + s5 + s6 + s7, s8);
  }

  /** Membership in the nine pieces of a vector. */
  lemma InNine(x: string, k1: seq<string>, k2: seq<string>, k3: seq<string>, k4: seq<string>,
               k5: seq<string>, k6: seq<string>, k7: seq<string>, k8: seq<string>, k9: seq<string>)
    ensures x in k1 + k2 + k3 + k4 + k5 + k6 + k7 + k8 + k9
      <==> x in k1 || x in k2 || x in k3 || x in k4 || x in k5 || x in k6 || x in k7 || x in k8 || x in k9
  {
  }

  lemma InFlagIf(x: string, on: bool, flag: string)
    ensures x in FlagIf(on, flag) <==> on && x == flag
  {
  }

  /** A flag occurs in a vector exactly when it occurs among its flags. */
  lemma {:induction false} InKeywords(args: seq<string>, x: string)
    requires IsKeyword(x)
    ensures x in args <==> x in Keywords(args)
  {
    if args != [] {
      InKeywords(args[1..], x);
      assert args == [args[0]] + args[1..];
    }
  }

  lemma {:induction false} ValuesHaveNoKeywords(values: seq<string>)
    requires forall i :: 0 <= i < |values| ==> !IsKeyword(values[i])
    ensures Keywords(values) == []
  {
    if values != [] {
      ValuesHaveNoKeywords(values[1..]);
    }
  }

  // ---------------------------------------------------------------------
  // The flags of each piece of the vector
  // ---------------------------------------------------------------------

  lemma FlagIfKeywords(on: bool, flag: string)
    requires IsKeyword(flag)
    ensures Keywords(FlagIf(on, flag)) == FlagIf(on, flag)
  {
    if on {
      assert [flag][1..] == [];
    }
  }

  lemma ListFlagKeywords(flag: string, values: seq<string>)
    requires IsKeyword(flag)
    requires forall i :: 0 <= i < |values| ==> !IsKeyword(values[i])
    ensures Keywords(ListFlag(flag, values)) == FlagIf(|values| > 0, flag)
  {
    if |values| > 0 {
      KeywordsAppend([flag], values);
      FlagIfKeywords(true, flag);
      ValuesHaveNoKeywords(values);
    }
  }

  lemma VersionArgKeywords(range: string)
    requires !IsKeyword(range)
    ensures Keywords(VersionArg(range)) == FlagIf(range != "", "-version")
  {
    if range != "" {
      assert ["-version", range] == ["-version"] + [range];
      KeywordsAppend(["-version"], [range]);
      FlagIfKeywords(true, "-version");
      ValuesHaveNoKeywords([range]);
    }
  }

  lemma FormatKeywords()
    ensures Keywords(["-format", "json"]) == ["-format"]
  {
    assert ["-format", "json"] == ["-format"] + ["json"];
    KeywordsAppend(["-format"], ["json"]);
    FlagIfKeywords(true, "-format");
    ValuesHaveNoKeywords(["json"]);
  }

  // ---------------------------------------------------------------------
  // The rendered vector
  // ---------------------------------------------------------------------

  /** Every vector `Find` renders ends with `-format json`, whatever the
      options. */
  lemma EndsWithFormatJson(so: SearchOptions)
    ensures |Render(so)| >= 2 && Render(so)[|Render(so)| - 2..] == ["-format", "json"]
  {
    SuffixOfAppend(FlagsPart(so), ["-format", "json"]);
  }

  /** The zero value `ZeroValue`, where `Find` starts, enables no flag. */
  lemma ZeroValueEnablesNothing(f: Field)
    ensures !Enabled(ZeroValue, f)
  {
  }

  /** With no options, `Find` renders exactly `-format json`. */
  lemma NoOptionsRenderFormatOnly()
    ensures Render(ApplyAll([])) == ["-format", "json"]
  {
  }

  /** The flags before `-format`: the enabled fields' flags, in the fixed
      order `-all`, `-prerelease`, `-products`, `-requires`, `-requiresAny`,
      `-version`, `-latest`, `-legacy`. */
  lemma FlagsPartKeywords(so: SearchOptions)
    requires WellFormed(so)
    ensures Keywords(FlagsPart(so))
      == FlagIf(so.all, "-all")
      + FlagIf(so.prerelease, "-prerelease")
      + FlagIf(|so.products| > 0, "-products")
      + FlagIf(|so.requirements| > 0, "-requires")
      + FlagIf(so.requiresAny, "-requiresAny")
      + FlagIf(so.version != "", "-version")
      + FlagIf(so.latest, "-latest")
      + FlagIf(so.legacy, "-legacy")
  {
    FlagIfKeywords(so.all, "-all");
    FlagIfKeywords(so.prerelease, "-prerelease");
    ListFlagKeywords("-products", so.products);
    ListFlagKeywords("-requires", so.requirements);
    FlagIfKeywords(so.requiresAny, "-requiresAny");
    VersionArgKeywords(so.version);
    FlagIfKeywords(so.latest, "-latest");
    FlagIfKeywords(so.legacy, "-legacy");
    KeywordsOfEight(
      FlagIf(so.all, "-all"), FlagIf(so.prerelease, "-prerelease"),
      ListFlag("-products", so.products), ListFlag("-requires", so.requirements),
      FlagIf(so.requiresAny, "-requiresAny"), VersionArg(so.version),
      FlagIf(so.latest, "-latest"), FlagIf(so.legacy, "-legacy"),
      FlagIf(so.all, "-all"), FlagIf(so.prerelease, "-prerelease"),
      FlagIf(|so.products| > 0, "-products"), FlagIf(|so.requirements| > 0, "-requires"),
      FlagIf(so.requiresAny, "-requiresAny"), FlagIf(so.version != "", "-version"),
      FlagIf(so.latest, "-latest"), FlagIf(so.legacy, "-legacy"));
  }

  /** For a well-formed record, the flags of the rendered vector are the
      enabled fields' flags in the fixed order, then `-format`: no value
      adds a flag, and the order depends on nothing but the record. */
  lemma FlagsInFixedOrder(so: SearchOptions)
    requires WellFormed(so)
    ensures Keywords(Render(so))
      == FlagIf(so.all, "-all")
      + FlagIf(so.prerelease, "-prerelease")
      + FlagIf(|so.products| > 0, "-products")
      + FlagIf(|so.requirements| > 0, "-requires")
      + FlagIf(so.requiresAny, "-requiresAny")
      + FlagIf(so.version != "", "-version")
      + FlagIf(so.latest, "-latest")
      + FlagIf(so.legacy, "-legacy")
      + ["-format"]
  {
    KeywordsAppend(FlagsPart(so), ["-format", "json"]);
    FlagsPartKeywords(so);
    FormatKeywords();
  }

  /** An enabled field's flag is in the vector, whatever the values. */
  lemma EnabledFlagPresent(so: SearchOptions, f: Field)
    requires Enabled(so, f)
    ensures FlagName(f) in Render(so)
  {
    InNine(FlagName(f),
      FlagIf(so.all, "-all"), FlagIf(so.prerelease, "-prerelease"),
      ListFlag("-products", so.products), ListFlag("-requires", so.requirements),
      FlagIf(so.requiresAny, "-requiresAny"), VersionArg(so.version),
      FlagIf(so.latest, "-latest"), FlagIf(so.legacy, "-legacy"), ["-format", "json"]);
    match f
    case All => InFlagIf("-all", true, "-all");
    case Prerelease => InFlagIf("-prerelease", true, "-prerelease");
    case Products => assert ListFlag("-products", so.products)[0] == "-products";
    case Requires => assert ListFlag("-requires", so.requirements)[0] == "-requires";
    case RequiresAny => InFlagIf("-requiresAny", true, "-requiresAny");
    case Version => assert VersionArg(so.version)[0] == "-version";
    case Latest => InFlagIf("-latest", true, "-latest");
    case Legacy => InFlagIf("-legacy", true, "-legacy");
  }

  /** For a well-formed record, a field's flag is in the vector exactly
      when the field enables it. */
  lemma FlagPresentIff(so: SearchOptions, f: Field)
    requires WellFormed(so)
    ensures FlagName(f) in Render(so) <==> Enabled(so, f)
  {
    var x := FlagName(f);
    assert IsKeyword(x);
    FlagsInFixedOrder(so);
    InKeywords(Render(so), x);
    InNine(x,
      FlagIf(so.all, "-all"), FlagIf(so.prerelease, "-prerelease"),
      FlagIf(|so.products| > 0, "-products"), FlagIf(|so.requirements| > 0, "-requires"),
      FlagIf(so.requiresAny, "-requiresAny"), FlagIf(so.version != "", "-version"),
      FlagIf(so.latest, "-latest"), FlagIf(so.legacy, "-legacy"), ["-format"]);
    InFlagIf(x, so.all, "-all");
    InFlagIf(x, so.prerelease, "-prerelease");
    InFlagIf(x, |so.products| > 0, "-products");
    InFlagIf(x, |so.requirements| > 0, "-requires");
    InFlagIf(x, so.requiresAny, "-requiresAny");
    InFlagIf(x, so.version != "", "-version");
    InFlagIf(x, so.latest, "-latest");
    InFlagIf(x, so.legacy, "-legacy");
  }

  /** For a well-formed record, `-format` occurs only in the final pair. */
  lemma FormatOnlyAtEnd(so: SearchOptions)
    requires WellFormed(so)
    ensures |Render(so)| >= 2 && "-format" !in Render(so)[..|Render(so)| - 2]
  {
    assert Render(so)[..|Render(so)| - 2] == FlagsPart(so);
    InKeywords(FlagsPart(so), "-format");
    FlagsPartKeywords(so);
    InNine("-format",
      FlagIf(so.all, "-all"), FlagIf(so.prerelease, "-prerelease"),
      FlagIf(|so.products| > 0, "-products"), FlagIf(|so.requirements| > 0, "-requires"),
      FlagIf(so.requiresAny, "-requiresAny"), FlagIf(so.version != "", "-version"),
      FlagIf(so.latest, "-latest"), FlagIf(so.legacy, "-legacy"), []);
  }

  /** `args` holds `flag` at `i`, immediately followed by `values`. */
  predicate ValuesAt(args: seq<string>, i: int, flag: string, values: seq<string>) {
    0 <= i && i + |values| < |args| && args[i] == flag && args[i + 1..i + 1 + |values|] == values
  }

  lemma ValuesAtPiece(prefix: seq<string>, flag: string, values: seq<string>)
    ensures ValuesAt(prefix + ([flag] + values), |prefix|, flag, values)
  {
    var args := prefix + ([flag] + values);
    assert args[|prefix| + 1..|prefix| + 1 + |values|] == values;
  }

  lemma ValuesAtAppend(args: seq<string>, more: seq<string>, i: int, flag: string, values: seq<string>)
    requires ValuesAt(args, i, flag, values)
    ensures ValuesAt(args + more, i, flag, values)
  {
    assert (args + more)[i + 1..i + 1 + |values|] == args[i + 1..i + 1 + |values|];
  }

  /** A non-empty product list follows `-products` verbatim and in order. */
  lemma ProductsFollowFlag(so: SearchOptions)
    requires |so.products| > 0
    ensures exists i :: ValuesAt(Render(so), i, "-products", so.products)
  {
    var x2 := FlagIf(so.all, "-all") + FlagIf(so.prerelease, "-prerelease");
    var x3 := x2 + ListFlag("-products", so.products);
    var x4 := x3 + ListFlag("-requires", so.requirements);
    var x5 := x4 + FlagIf(so.requiresAny, "-requiresAny");
    var x6 := x5 + VersionArg(so.version);
    var x7 := x6 + FlagIf(so.latest, "-latest");
    var x8 := x7 + FlagIf(so.legacy, "-legacy");
    assert ListFlag("-products", so.products) == ["-products"] + so.products;
    ValuesAtPiece(x2, "-products", so.products);
    ValuesAtAppend(x3, ListFlag("-requires", so.requirements), |x2|, "-products", so.products);
    ValuesAtAppend(x4, FlagIf(so.requiresAny, "-requiresAny"), |x2|, "-products", so.products);
    ValuesAtAppend(x5, VersionArg(so.version), |x2|, "-products", so.products);
    ValuesAtAppend(x6, FlagIf(so.latest, "-latest"), |x2|, "-products", so.products);
    ValuesAtAppend(x7, FlagIf(so.legacy, "-legacy"), |x2|, "-products", so.products);
    ValuesAtAppend(x8, ["-format", "json"], |x2|, "-products", so.products);
    assert Render(so) == x8 + ["-format", "json"];
    assert ValuesAt(Render(so), |x2|, "-products", so.products);
  }

  /** A non-empty requirement list follows `-requires` verbatim and in order. */
  lemma RequiresFollowFlag(so: SearchOptions)
    requires |so.requirements| > 0
    ensures exists i :: ValuesAt(Render(so), i, "-requires", so.requirements)
  {
    var x3 := FlagIf(so.all, "-all") + FlagIf(so.prerelease, "-prerelease") + ListFlag("-products", so.products);
    var x4 := x3 + ListFlag("-requires", so.requirements);
    var x5 := x4 + FlagIf(so.requiresAny, "-requiresAny");
    var x6 := x5 + VersionArg(so.version);
    var x7 := x6 + FlagIf(so.latest, "-latest");
    var x8 := x7 + FlagIf(so.legacy, "-legacy");
    assert ListFlag("-requires", so.requirements) == ["-requires"] + so.requirements;
    ValuesAtPiece(x3, "-requires", so.requirements);
    ValuesAtAppend(x4, FlagIf(so.requiresAny, "-requiresAny"), |x3|, "-requires", so.requirements);
    ValuesAtAppend(x5, VersionArg(so.version), |x3|, "-requires", so.requirements);
    ValuesAtAppend(x6, FlagIf(so.latest, "-latest"), |x3|, "-requires", so.requirements);
    ValuesAtAppend(x7, FlagIf(so.legacy, "-legacy"), |x3|, "-requires", so.requirements);
    ValuesAtAppend(x8, ["-format", "json"], |x3|, "-requires", so.requirements);
    assert Render(so) == x8 + ["-format", "json"];
    assert ValuesAt(Render(so), |x3|, "-requires", so.requirements);
  }

  /** A non-empty version range follows `-version` as it is. */
  lemma VersionFollowsFlag(so: SearchOptions)
    requires so.version != ""
    ensures exists i :: ValuesAt(Render(so), i, "-version", [so.version])
  {
    var x5 := FlagIf(so.all, "-all") + FlagIf(so.prerelease, "-prerelease") + ListFlag("-products", so.products)
      + ListFlag("-requires", so.requirements) + FlagIf(so.requiresAny, "-requiresAny");
    var x6 := x5 + VersionArg(so.version);
    var x7 := x6 + FlagIf(so.latest, "-latest");
    var x8 := x7 + FlagIf(so.legacy, "-legacy");
    assert VersionArg(so.version) == ["-version"] + [so.version];
    ValuesAtPiece(x5, "-version", [so.version]);
    ValuesAtAppend(x6, FlagIf(so.latest, "-latest"), |x5|, "-version", [so.version]);
    ValuesAtAppend(x7, FlagIf(so.legacy, "-legacy"), |x5|, "-version", [so.version]);
    ValuesAtAppend(x8, ["-format", "json"], |x5|, "-version", [so.version]);
    assert Render(so) == x8 + ["-format", "json"];
    assert ValuesAt(Render(so), |x5|, "-version", [so.version]);
  }

  /** Reordering neighbouring options for different fields does not change
      the vector `Find` renders. */
  lemma ArgsIgnoreOptionOrder(prefix: seq<Option>, o1: Option, o2: Option, suffix: seq<Option>)
    requires Target(o1) != Target(o2)
    ensures Render(ApplyAll(prefix + [o1, o2] + suffix)) == Render(ApplyAll(prefix + [o2, o1] + suffix))
  {
    SwapDistinctNeighbours(prefix, o1, o2, suffix);
  }
}
