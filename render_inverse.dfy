/**
 * Reading an argument vector back into a record, the way a command-line
 * parser would read the vector `Find` renders.  Reading undoes rendering
 * for every well-formed record, so no two well-formed records render to
 * the same vector; without well-formedness that fails, because values go
 * into the vector verbatim.
 */
module RenderInverse {
  import opened VsWhere
  import opened RenderLemmas

  datatype Reading = Rejected | Accepted(so: SearchOptions)

  /** The longest prefix of `args` with no flag in it. */
  function Values(args: seq<string>): (vs: seq<string>)
    ensures |vs| <= |args| && vs == args[..|vs|]
    ensures forall i :: 0 <= i < |vs| ==> !IsKeyword(vs[i])
    ensures |vs| < |args| ==> IsKeyword(args[|vs|])
  {
    if args == [] || IsKeyword(args[0]) then [] else [args[0]] + Values(args[1..])
  }

  /** The record after `flag`, one of the boolean flags, switched its
      field on. */
  function Mark(acc: SearchOptions, flag: string): SearchOptions {
    if flag == "-all" then acc.(all := true)
    else if flag == "-prerelease" then acc.(prerelease := true)
    else if flag == "-requiresAny" then acc.(requiresAny := true)
    else if flag == "-latest" then acc.(latest := true)
    else if flag == "-legacy" then acc.(legacy := true)
    else acc
  }

  predicate IsBooleanFlag(s: string) {
    s == "-all" || s == "-prerelease" || s == "-requiresAny" || s == "-latest" || s == "-legacy"
  }

  /** Read `args` into `acc`: boolean flags switch their field on, a list
      flag takes the values up to the next flag (at least one), `-version`
      takes the next word, and the vector must end in `-format json`. */
  function ReadFrom(args: seq<string>, acc: SearchOptions): Reading
    decreases |args|
  {
    if args == [] then Rejected
    else if args[0] == "-format" then (if args[1..] == ["json"] then Accepted(acc) else Rejected)
    else if IsBooleanFlag(args[0]) then ReadFrom(args[1..], Mark(acc, args[0]))
    else if args[0] == "-products" || args[0] == "-requires" then
      var vs := Values(args[1..]);
      if vs == [] then Rejected
      else if args[0] == "-products" then ReadFrom(args[1 + |vs|..], acc.(products := vs))
      else ReadFrom(args[1 + |vs|..], acc.(requirements := vs))
    else if args[0] == "-version" then
      if |args| >= 2 && !IsKeyword(args[1]) then ReadFrom(args[2..], acc.(version := args[1])) else Rejected
    else Rejected
  }

  function Read(args: seq<string>): Reading {
    ReadFrom(args, ZeroValue)
  }

  // ---------------------------------------------------------------------
  // One piece at a time
  // ---------------------------------------------------------------------

  /** A vector that starts with a flag. */
  predicate LeadsWithFlag(args: seq<string>) {
    |args| > 0 && IsKeyword(args[0])
  }

  lemma {:induction false} ValuesBeforeFlag(vals: seq<string>, rest: seq<string>)
    requires forall i :: 0 <= i < |vals| ==> !IsKeyword(vals[i])
    requires LeadsWithFlag(rest)
    ensures Values(vals + rest) == vals
  {
    if vals == [] {
      assert vals + rest == rest;
    } else {
      assert (vals + rest)[0] == vals[0] && (vals + rest)[1..] == vals[1..] + rest;
      ValuesBeforeFlag(vals[1..], rest);
    }
  }

  lemma FlagStep(on: bool, flag: string, rest: seq<string>, acc: SearchOptions)
    requires IsBooleanFlag(flag)
    ensures ReadFrom(FlagIf(on, flag) + rest, acc) == ReadFrom(rest, if on then Mark(acc, flag) else acc)
  {
    if on {
      assert ([flag] + rest)[1..] == rest;
    } else {
      assert [] + rest == rest;
    }
  }

  lemma ListStep(flag: string, vals: seq<string>, rest: seq<string>, acc: SearchOptions)
    requires flag == "-products" || flag == "-requires"
    requires forall i :: 0 <= i < |vals| ==> !IsKeyword(vals[i])
    requires LeadsWithFlag(rest)
    ensures ReadFrom(ListFlag(flag, vals) + rest, acc)
      == ReadFrom(rest, if vals == [] then acc
                        else if flag == "-products" then acc.(products := vals)
                        else acc.(requirements := vals))
  {
    if vals == [] {
      assert ListFlag(flag, vals) + rest == rest;
    } else {
      var args := ListFlag(flag, vals) + rest;
      assert args == [flag] + (vals + rest);
      assert args[1..] == vals + rest;
      ValuesBeforeFlag(vals, rest);
      assert args[1 + |vals|..] == rest;
    }
  }

  lemma VersionStep(range: string, rest: seq<string>, acc: SearchOptions)
    requires !IsKeyword(range)
    ensures ReadFrom(VersionArg(range) + rest, acc)
      == ReadFrom(rest, if range == "" then acc else acc.(version := range))
  {
    if range == "" {
      assert VersionArg(range) + rest == rest;
    } else {
      var args := VersionArg(range) + rest;
      assert args[0] == "-version" && args[1] == range && args[2..] == rest;
    }
  }

  lemma LeadsWithFlagAppend(piece: seq<string>, rest: seq<string>)
    requires piece == [] || IsKeyword(piece[0])
    requires LeadsWithFlag(rest)
    ensures LeadsWithFlag(piece + rest)
  {
    if piece == [] {
      assert piece + rest == rest;
    }
  }

  lemma Reassociate(s1: seq<string>, s2: seq<string>, s3: seq<string>, s4: seq<string>, s5: seq<string>,
                    s6: seq<string>, s7: seq<string>, s8: seq<string>, s9: seq<string>)
    ensures s1 + s2 + s3 + s4 + s5 + s6 + s7 + s8 + s9
      == s1 + (s2 + (s3 + (s4 + (s5 + (s6 + (s7 + (s8 + s9)))))))
  {
  }

  // ---------------------------------------------------------------------
  // Reading undoes rendering
  // ---------------------------------------------------------------------

  /** The record read so far once the first `k` fields' pieces are read:
      those fields of `so`, the rest at their zero value. */
  function Prefix(so: SearchOptions, k: nat): SearchOptions {
    SearchOptions(
      all := k > 0 && so.all,
      prerelease := k > 1 && so.prerelease,
      products := if k > 2 then so.products else [],
      requirements := if k > 3 then so.requirements else [],
      requiresAny := k > 4 && so.requiresAny,
      version := if k > 5 then so.version else "",
      latest := k > 6 && so.latest,
      legacy := k > 7 && so.legacy)
  }

  /** The rendered vector from a field's piece on, for each field. */
  function FromAll(so: SearchOptions): seq<string> {
    FlagIf(so.all, "-all") + FromPrerelease(so)
  }

  function FromPrerelease(so: SearchOptions): seq<string> {
    FlagIf(so.prerelease, "-prerelease") + FromProducts(so)
  }

  function FromProducts(so: SearchOptions): seq<string> {
    ListFlag("-products", so.products) + FromRequires(so)
  }

  function FromRequires(so: SearchOptions): seq<string> {
    ListFlag("-requires", so.requirements) + FromRequiresAny(so)
  }

  function FromRequiresAny(so: SearchOptions): seq<string> {
    FlagIf(so.requiresAny, "-requiresAny") + FromVersion(so)
  }

  function FromVersion(so: SearchOptions): seq<string> {
    VersionArg(so.version) + FromLatest(so)
  }

  function FromLatest(so: SearchOptions): seq<string> {
    FlagIf(so.latest, "-latest") + FromLegacy(so)
  }

  function FromLegacy(so: SearchOptions): seq<string> {
    FlagIf(so.legacy, "-legacy") + ["-format", "json"]
  }

  /** Reading from a field's piece on, with the fields before it already
      read, yields the record; and that part of the vector starts with a
      flag, which is where a list before it stops. */
  lemma ReadFromLegacy(so: SearchOptions)
    requires WellFormed(so)
    ensures LeadsWithFlag(FromLegacy(so))
    ensures ReadFrom(FromLegacy(so), Prefix(so, 7)) == Accepted(so)
  {
    LeadsWithFlagAppend(FlagIf(so.legacy, "-legacy"), ["-format", "json"]);
    FlagStep(so.legacy, "-legacy", ["-format", "json"], Prefix(so, 7));
    assert Prefix(so, 8) == so;
  }

  lemma ReadFromLatest(so: SearchOptions)
    requires WellFormed(so)
    ensures LeadsWithFlag(FromLatest(so))
    ensures ReadFrom(FromLatest(so), Prefix(so, 6)) == Accepted(so)
  {
    ReadFromLegacy(so);
    LeadsWithFlagAppend(FlagIf(so.latest, "-latest"), FromLegacy(so));
    FlagStep(so.latest, "-latest", FromLegacy(so), Prefix(so, 6));
  }

  lemma ReadFromVersion(so: SearchOptions)
    requires WellFormed(so)
    ensures LeadsWithFlag(FromVersion(so))
    ensures ReadFrom(FromVersion(so), Prefix(so, 5)) == Accepted(so)
  {
    ReadFromLatest(so);
    LeadsWithFlagAppend(VersionArg(so.version), FromLatest(so));
    VersionStep(so.version, FromLatest(so), Prefix(so, 5));
  }

  lemma ReadFromRequiresAny(so: SearchOptions)
    requires WellFormed(so)
    ensures LeadsWithFlag(FromRequiresAny(so))
    ensures ReadFrom(FromRequiresAny(so), Prefix(so, 4)) == Accepted(so)
  {
    ReadFromVersion(so);
    LeadsWithFlagAppend(FlagIf(so.requiresAny, "-requiresAny"), FromVersion(so));
    FlagStep(so.requiresAny, "-requiresAny", FromVersion(so), Prefix(so, 4));
  }

  lemma ReadFromRequires(so: SearchOptions)
    requires WellFormed(so)
    ensures LeadsWithFlag(FromRequires(so))
    ensures ReadFrom(FromRequires(so), Prefix(so, 3)) == Accepted(so)
  {
    ReadFromRequiresAny(so);
    LeadsWithFlagAppend(ListFlag("-requires", so.requirements), FromRequiresAny(so));
    ListStep("-requires", so.requirements, FromRequiresAny(so), Prefix(so, 3));
  }

  lemma ReadFromProducts(so: SearchOptions)
    requires WellFormed(so)
    ensures LeadsWithFlag(FromProducts(so))
    ensures ReadFrom(FromProducts(so), Prefix(so, 2)) == Accepted(so)
  {
    ReadFromRequires(so);
    LeadsWithFlagAppend(ListFlag("-products", so.products), FromRequires(so));
    ListStep("-products", so.products, FromRequires(so), Prefix(so, 2));
  }

  lemma ReadFromPrerelease(so: SearchOptions)
    requires WellFormed(so)
    ensures LeadsWithFlag(FromPrerelease(so))
    ensures ReadFrom(FromPrerelease(so), Prefix(so, 1)) == Accepted(so)
  {
    ReadFromProducts(so);
    LeadsWithFlagAppend(FlagIf(so.prerelease, "-prerelease"), FromProducts(so));
    FlagStep(so.prerelease, "-prerelease", FromProducts(so), Prefix(so, 1));
  }

  lemma ReadFromAll(so: SearchOptions)
    requires WellFormed(so)
    ensures LeadsWithFlag(FromAll(so))
    ensures ReadFrom(FromAll(so), Prefix(so, 0)) == Accepted(so)
  {
    ReadFromPrerelease(so);
    LeadsWithFlagAppend(FlagIf(so.all, "-all"), FromPrerelease(so));
    FlagStep(so.all, "-all", FromPrerelease(so), Prefix(so, 0));
  }

  /** The vector from the first piece on is the rendered vector. */
  lemma RenderIsFromAll(so: SearchOptions)
    ensures Render(so) == FromAll(so)
  {
    Reassociate(
      FlagIf(so.all, "-all"), FlagIf(so.prerelease, "-prerelease"),
      ListFlag("-products", so.products), ListFlag("-requires", so.requirements),
      FlagIf(so.requiresAny, "-requiresAny"), VersionArg(so.version),
      FlagIf(so.latest, "-latest"), FlagIf(so.legacy, "-legacy"), ["-format", "json"]);
  }

  /** Reading the vector of a well-formed record gives that record back. */
  lemma ReadRender(so: SearchOptions)
    requires WellFormed(so)
    ensures Read(Render(so)) == Accepted(so)
  {
    RenderIsFromAll(so);
    ReadFromAll(so);
    assert Prefix(so, 0) == ZeroValue;
  }

  /** No two well-formed records render to the same vector. */
  lemma RenderInjective(a: SearchOptions, b: SearchOptions)
    requires WellFormed(a) && WellFormed(b)
    requires Render(a) == Render(b)
    ensures a == b
  {
    ReadRender(a);
    ReadRender(b);
  }

  /** Without well-formedness two records can render alike: a product
      list that holds the word `-requires` reads as a requirement. */
  lemma RenderNotInjectiveWithFlagValues()
    ensures var a := ZeroValue.(products := ["x", "-requires", "y"]);
            var b := ZeroValue.(products := ["x"], requirements := ["y"]);
            a != b && Render(a) == Render(b)
  {
    var a := ZeroValue.(products := ["x", "-requires", "y"]);
    var b := ZeroValue.(products := ["x"], requirements := ["y"]);
    assert a.products != b.products;
    assert Render(a) == ["-products", "x", "-requires", "y", "-format", "json"];
    assert Render(b) == ["-products", "x", "-requires", "y", "-format", "json"];
  }
}
