/** The set of shader programs of a shader pack: which program names are read,
    which three source files each program is read from, and in which order the
    programs are visited to collect their directives. The source provider is a
    function from a file name inside the pack's program directory to its text,
    `None` standing for a missing file (`null`). */
module Shaderpack {
  import opened JavaLang

  /** A program's name and its three sources, each possibly missing. */
  datatype ProgramSource = ProgramSource(
    name: string,
    vertexSource: Option<string>,
    geometrySource: Option<string>,
    fragmentSource: Option<string>)

  type SourceProvider = string -> Option<string>

  // ---- Decimal form of an index (Integer.toString on non-negative values) ----

  function DigitChar(d: nat): char
    requires d < 10
  {
    ('0' as int + d) as char
  }

  predicate IsDigit(c: char) {
    '0' <= c <= '9'
  }

  function DigitValue(c: char): nat
    requires IsDigit(c)
  {
    c as int - '0' as int
  }

  /** The decimal form of `n`, most significant digit first, without leading zeros. */
  function DecimalString(n: nat): string
    decreases n
  {
    if n < 10 then [DigitChar(n)] else DecimalString(n / 10) + [DigitChar(n % 10)]
  }

  /** The number a string of decimal digits denotes. */
  function DecimalValue(s: string): nat
    requires forall i :: 0 <= i < |s| ==> IsDigit(s[i])
  {
    if s == [] then 0 else 10 * DecimalValue(s[..|s| - 1]) + DigitValue(s[|s| - 1])
  }

  /** The decimal form is a non-empty string of digits, with no leading zero
      unless `n` is zero, that denotes `n` again. */
  lemma {:induction false} DecimalRoundTrip(n: nat)
    ensures var s := DecimalString(n);
      && |s| > 0
      && (forall i :: 0 <= i < |s| ==> IsDigit(s[i]))
      && (n > 0 ==> s[0] != '0')
      && DecimalValue(s) == n
    decreases n
  {
    if n >= 10 {
      DecimalRoundTrip(n / 10);
      var s := DecimalString(n);
      assert s[..|s| - 1] == DecimalString(n / 10);
      assert s[0] == DecimalString(n / 10)[0];
    }
  }

  // ---- Program and file naming ----

  /** Programs of an array come in this many slots. */
  const ProgramArrayLength: nat := 16

  /** What is appended to an array's name for slot `i`: nothing for slot 0,
      the decimal form of `i` otherwise. */
  function Suffix(i: nat): string {
    if i == 0 then "" else DecimalString(i)
  }

  /** The program read into slot `i` of the array called `name`. */
  function ArrayProgramName(name: string, i: nat): string {
    name + Suffix(i)
  }

  /** The names of the slots of the array called `name`, slot by slot. */
  function ArrayProgramNames(name: string): (names: seq<string>)
    ensures |names| == ProgramArrayLength
  {
    seq(ProgramArrayLength, i requires 0 <= i < ProgramArrayLength => ArrayProgramName(name, i))
  }

  /** Different slots of one array read different programs. */
  lemma ArrayProgramNameInjective(name: string, i: nat, j: nat)
    requires ArrayProgramName(name, i) == ArrayProgramName(name, j)
    ensures i == j
  {
    DecimalRoundTrip(i);
    DecimalRoundTrip(j);
    assert Suffix(i) == ArrayProgramName(name, i)[|name|..];
    assert Suffix(j) == ArrayProgramName(name, j)[|name|..];
  }

  /** The three kinds of source file a program is read from. */
  datatype Stage = Vertex | Geometry | Fragment

  function Extension(stage: Stage): string {
    match stage
    case Vertex => ".vsh"
    case Geometry => ".gsh"
    case Fragment => ".fsh"
  }

  /** The file holding the `stage` source of `program`. */
  function SourceFileName(program: string, stage: Stage): string {
    program + Extension(stage)
  }

  /** Splits a source file name back into its program and stage. */
  function ParseSourceFileName(file: string): Option<(string, Stage)> {
    if |file| < 4 then None
    else
      var program, ext := file[..|file| - 4], file[|file| - 4..];
      if ext == ".vsh" then Some((program, Vertex))
      else if ext == ".gsh" then Some((program, Geometry))
      else if ext == ".fsh" then Some((program, Fragment))
      else None
  }

  /** A source file name determines its program and its stage, so no two
      (program, stage) pairs share a file. */
  lemma SourceFileNameRoundTrip(program: string, stage: Stage)
    ensures ParseSourceFileName(SourceFileName(program, stage)) == Some((program, stage))
  {
  }

  /** The files a program is read from, in the order they are asked for. */
  function SourceQueries(program: string): seq<string> {
    [SourceFileName(program, Vertex), SourceFileName(program, Geometry), SourceFileName(program, Fragment)]
  }

  /** Reads `program`: the vertex, geometry and fragment sources, each asked of
      the provider under the program's name with its stage's extension. */
  function ReadProgramSource(provider: SourceProvider, program: string): ProgramSource {
    var queries := SourceQueries(program);
    ProgramSource(program, provider(queries[0]), provider(queries[1]), provider(queries[2]))
  }

  /** The program keeps the name it was read under, its sources are the
      provider's answers for `<program>.vsh`, `<program>.gsh` and `<program>.fsh`
      in that order, and the three files asked for are distinct. */
  lemma ReadProgramSourceQueries(provider: SourceProvider, program: string)
    ensures var r := ReadProgramSource(provider, program);
      && r.name == program
      && SourceQueries(program) == [program + ".vsh", program + ".gsh", program + ".fsh"]
      && r.vertexSource == provider(program + ".vsh")
      && r.geometrySource == provider(program + ".gsh")
      && r.fragmentSource == provider(program + ".fsh")
    ensures forall i, j :: 0 <= i < j < 3 ==> SourceQueries(program)[i] != SourceQueries(program)[j]
  {
    SourceFileNameRoundTrip(program, Vertex);
    SourceFileNameRoundTrip(program, Geometry);
    SourceFileNameRoundTrip(program, Fragment);
  }

  /** Reads the 16 programs of the array called `name` into a new array. */
  method ReadProgramArray(provider: SourceProvider, name: string) returns (programs: array<Option<ProgramSource>>)
    ensures fresh(programs)
    ensures programs.Length == ProgramArrayLength
    ensures forall i :: 0 <= i < programs.Length ==>
      programs[i] == Some(ReadProgramSource(provider, ArrayProgramName(name, i)))
  {
    programs := new Option<ProgramSource>[ProgramArrayLength](_ => None);
    for i := 0 to programs.Length
      invariant forall k :: 0 <= k < i ==> programs[k] == Some(ReadProgramSource(provider, ArrayProgramName(name, k)))
    {
      var suffix := if i == 0 then "" else DecimalString(i);
      programs[i] := Some(ReadProgramSource(provider, name + suffix));
    }
  }

  // ---- Visiting programs ----

  /** The programs of `s` that are present, in the order of `s`. */
  function Present(s: seq<Option<ProgramSource>>): seq<ProgramSource> {
    if s == [] then []
    else
      var last := s[|s| - 1];
      Present(s[..|s| - 1]) + (if last.Some? then [last.value] else [])
  }

  /** A program is visited exactly when it sits in some slot; missing slots add nothing. */
  lemma {:induction false} PresentMembership(s: seq<Option<ProgramSource>>, p: ProgramSource)
    ensures p in Present(s) <==> Some(p) in s
  {
    if s != [] {
      PresentMembership(s[..|s| - 1], p);
      assert s == s[..|s| - 1] + [s[|s| - 1]];
    }
  }

  /** Each missing slot shortens the visit by one; a sequence without missing
      slots is visited in full. */
  lemma {:induction false} PresentLength(s: seq<Option<ProgramSource>>)
    ensures |Present(s)| <= |s|
    ensures |Present(s)| == |s| <==> forall i :: 0 <= i < |s| ==> s[i].Some?
  {
    if s != [] {
      PresentLength(s[..|s| - 1]);
      assert forall i :: 0 <= i < |s| - 1 ==> s[..|s| - 1][i] == s[i];
    }
  }

  /** The fragment sources of `ps` that are present, in the order of `ps`: what
      the directive scan reads. */
  function FragmentSources(ps: seq<ProgramSource>): seq<string> {
    if ps == [] then []
    else
      var last := ps[|ps| - 1];
      FragmentSources(ps[..|ps| - 1]) + (if last.fragmentSource.Some? then [last.fragmentSource.value] else [])
  }

  /** A text is scanned exactly when it is the fragment source of some visited
      program; programs without a fragment source add nothing. */
  lemma {:induction false} FragmentSourcesMembership(ps: seq<ProgramSource>, f: string)
    ensures f in FragmentSources(ps) <==> exists p :: p in ps && p.fragmentSource == Some(f)
  {
    if ps != [] {
      var k := |ps| - 1;
      FragmentSourcesMembership(ps[..k], f);
      assert ps == ps[..k] + [ps[k]];
      if f in FragmentSources(ps) && f !in FragmentSources(ps[..k]) {
        assert ps[k] in ps && ps[k].fragmentSource == Some(f);
      }
      if exists p :: p in ps && p.fragmentSource == Some(f) {
        var p :| p in ps && p.fragmentSource == Some(f);
        if p !in ps[..k] {
          assert p == ps[k];
        }
      }
    }
  }

  /** The names of a sequence of programs, in order. */
  function Names(ps: seq<ProgramSource>): (names: seq<string>)
    ensures |names| == |ps|
  {
    seq(|ps|, i requires 0 <= i < |ps| => ps[i].name)
  }

  /** Every slot of `s` is present and holds the program named by the matching entry of `names`. */
  ghost predicate Holds(s: seq<Option<ProgramSource>>, names: seq<string>) {
    |s| == |names| && forall i :: 0 <= i < |s| ==> s[i].Some? && s[i].value.name == names[i]
  }

  lemma HoldsAppend(s1: seq<Option<ProgramSource>>, n1: seq<string>, s2: seq<Option<ProgramSource>>, n2: seq<string>)
    requires Holds(s1, n1) && Holds(s2, n2)
    ensures Holds(s1 + s2, n1 + n2)
  {
  }

  /** When every slot holds a program, the visit meets them under exactly the given names. */
  lemma {:induction false} NamesOfPresent(s: seq<Option<ProgramSource>>, names: seq<string>)
    requires Holds(s, names)
    ensures Names(Present(s)) == names
  {
    if s != [] {
      var k := |s| - 1;
      NamesOfPresent(s[..k], names[..k]);
      assert Present(s) == Present(s[..k]) + [s[k].value];
      assert names == names[..k] + [names[k]];
    }
  }

  /** The names of the sixteen separate gbuffers programs, in the order they are visited. */
  const GbuffersProgramNames: seq<string> := [
    "gbuffers_basic", "gbuffers_beaconbeam", "gbuffers_textured", "gbuffers_textured_lit",
    "gbuffers_terrain", "gbuffers_damagedblock", "gbuffers_skybasic", "gbuffers_skytextured",
    "gbuffers_clouds", "gbuffers_weather", "gbuffers_entities", "gbuffers_entities_glowing",
    "gbuffers_armor_glint", "gbuffers_spidereyes", "gbuffers_block", "gbuffers_hand"]

  /** The programs a freshly read program set visits, by name, in visiting order. */
  function VisitOrder(): (names: seq<string>)
    ensures |names| == 84
  {
    ["shadow"]
    + ArrayProgramNames("shadowcomp")
    + ArrayProgramNames("prepare")
    + GbuffersProgramNames
    + ArrayProgramNames("deferred")
    + ["gbuffers_water", "gbuffers_hand_water"]
    + ArrayProgramNames("composite")
    + ["final"]
  }

  /** All programs of a shader pack, read once when the set is built. Single
      programs are final fields; arrays are final references to arrays whose
      slots anyone holding the array can overwrite, `null` included. */
  class ProgramSet {
    const shadow: ProgramSource
    const shadowcomp: array<Option<ProgramSource>>
    const prepare: array<Option<ProgramSource>>

    const gbuffersBasic: ProgramSource
    const gbuffersBeaconBeam: ProgramSource
    const gbuffersTextured: ProgramSource
    const gbuffersTexturedLit: ProgramSource
    const gbuffersTerrain: ProgramSource
    const gbuffersDamagedBlock: ProgramSource
    const gbuffersSkyBasic: ProgramSource
    const gbuffersSkyTextured: ProgramSource
    const gbuffersClouds: ProgramSource
    const gbuffersWeather: ProgramSource
    const gbuffersEntities: ProgramSource
    const gbuffersEntitiesGlowing: ProgramSource
    const gbuffersGlint: ProgramSource
    const gbuffersEntityEyes: ProgramSource
    const gbuffersBlock: ProgramSource
    const gbuffersHand: ProgramSource

    const deferred: array<Option<ProgramSource>>

    const gbuffersWater: ProgramSource
    const gbuffersHandWater: ProgramSource

    const composite: array<Option<ProgramSource>>
    const compositeFinal: ProgramSource

    /** The non-null programs visited at construction, in order. */
    ghost var directiveSources: seq<ProgramSource>

    /** The fragment sources scanned for directives at construction, in order. */
    ghost var scannedFragments: seq<string>

    /** The sixteen separate gbuffers programs in visiting order. */
    function GbuffersPrograms(): seq<ProgramSource> {
      [gbuffersBasic, gbuffersBeaconBeam, gbuffersTextured, gbuffersTexturedLit,
       gbuffersTerrain, gbuffersDamagedBlock, gbuffersSkyBasic, gbuffersSkyTextured,
       gbuffersClouds, gbuffersWeather, gbuffersEntities, gbuffersEntitiesGlowing,
       gbuffersGlint, gbuffersEntityEyes, gbuffersBlock, gbuffersHand]
    }

    /** The same sixteen programs as slots of the visiting list. */
    function GbuffersSlots(): seq<Option<ProgramSource>> {
      seq(16, i requires 0 <= i < 16 => Some(GbuffersPrograms()[i]))
    }

    /** Every slot `locateDirectives` walks through, in order, missing ones included. */
    function ProgramList(): seq<Option<ProgramSource>>
      reads this, shadowcomp, prepare, deferred, composite
    {
      [Some(shadow)]
      + shadowcomp[..]
      + prepare[..]
      + GbuffersSlots()
      + deferred[..]
      + [Some(gbuffersWater), Some(gbuffersHandWater)]
      + composite[..]
      + [Some(compositeFinal)]
    }

    constructor (provider: SourceProvider)
      ensures shadow == ReadProgramSource(provider, "shadow")
      ensures forall i :: 0 <= i < shadowcomp.Length ==> shadowcomp[i] == Some(ReadProgramSource(provider, ArrayProgramName("shadowcomp", i)))
      ensures forall i :: 0 <= i < prepare.Length ==> prepare[i] == Some(ReadProgramSource(provider, ArrayProgramName("prepare", i)))
      ensures forall i :: 0 <= i < 16 ==> GbuffersPrograms()[i] == ReadProgramSource(provider, GbuffersProgramNames[i])
      ensures gbuffersGlint == ReadProgramSource(provider, "gbuffers_armor_glint")
      ensures gbuffersEntityEyes == ReadProgramSource(provider, "gbuffers_spidereyes")
      ensures forall i :: 0 <= i < deferred.Length ==> deferred[i] == Some(ReadProgramSource(provider, ArrayProgramName("deferred", i)))
      ensures gbuffersWater == ReadProgramSource(provider, "gbuffers_water")
      ensures gbuffersHandWater == ReadProgramSource(provider, "gbuffers_hand_water")
      ensures forall i :: 0 <= i < composite.Length ==> composite[i] == Some(ReadProgramSource(provider, ArrayProgramName("composite", i)))
      ensures compositeFinal == ReadProgramSource(provider, "final")
      ensures fresh(shadowcomp) && fresh(prepare) && fresh(deferred) && fresh(composite)
      ensures shadowcomp.Length == prepare.Length == deferred.Length == composite.Length == ProgramArrayLength
      ensures |ProgramList()| == 84
      ensures directiveSources == Present(ProgramList())
      ensures scannedFragments == FragmentSources(directiveSources)
      ensures Names(directiveSources) == VisitOrder()
    {
      shadow := ReadProgramSource(provider, "shadow");

      var shadowcompPrograms := ReadProgramArray(provider, "shadowcomp");
      shadowcomp := shadowcompPrograms;
      var preparePrograms := ReadProgramArray(provider, "prepare");
      prepare := preparePrograms;

      gbuffersBasic := ReadProgramSource(provider, "gbuffers_basic");
      gbuffersBeaconBeam := ReadProgramSource(provider, "gbuffers_beaconbeam");
      gbuffersTextured := ReadProgramSource(provider, "gbuffers_textured");
      gbuffersTexturedLit := ReadProgramSource(provider, "gbuffers_textured_lit");
      gbuffersTerrain := ReadProgramSource(provider, "gbuffers_terrain");
      gbuffersDamagedBlock := ReadProgramSource(provider, "gbuffers_damagedblock");
      gbuffersSkyBasic := ReadProgramSource(provider, "gbuffers_skybasic");
      gbuffersSkyTextured := ReadProgramSource(provider, "gbuffers_skytextured");
      gbuffersClouds := ReadProgramSource(provider, "gbuffers_clouds");
      gbuffersWeather := ReadProgramSource(provider, "gbuffers_weather");
      gbuffersEntities := ReadProgramSource(provider, "gbuffers_entities");
      gbuffersEntitiesGlowing := ReadProgramSource(provider, "gbuffers_entities_glowing");
      gbuffersGlint := ReadProgramSource(provider, "gbuffers_armor_glint");
      gbuffersEntityEyes := ReadProgramSource(provider, "gbuffers_spidereyes");
      gbuffersBlock := ReadProgramSource(provider, "gbuffers_block");
      gbuffersHand := ReadProgramSource(provider, "gbuffers_hand");

      var deferredPrograms := ReadProgramArray(provider, "deferred");
      deferred := deferredPrograms;

      gbuffersWater := ReadProgramSource(provider, "gbuffers_water");
      gbuffersHandWater := ReadProgramSource(provider, "gbuffers_hand_water");

      var compositePrograms := ReadProgramArray(provider, "composite");
      composite := compositePrograms;
      compositeFinal := ReadProgramSource(provider, "final");

      new;

      var visited, scanned := LocateDirectives();
      directiveSources, scannedFragments := visited, scanned;
      ProgramListVisitOrder();
    }

    /** The slots of a freshly read set hold the programs named by the visit order. */
    lemma ProgramListVisitOrder()
      requires shadow.name == "shadow"
      requires forall i :: 0 <= i < 16 ==> GbuffersPrograms()[i].name == GbuffersProgramNames[i]
      requires gbuffersWater.name == "gbuffers_water" && gbuffersHandWater.name == "gbuffers_hand_water"
      requires compositeFinal.name == "final"
      requires ArrayHolds(shadowcomp, "shadowcomp") && ArrayHolds(prepare, "prepare")
      requires ArrayHolds(deferred, "deferred") && ArrayHolds(composite, "composite")
      ensures Names(Present(ProgramList())) == VisitOrder()
    {
      var gbuffers := GbuffersSlots();
      assert Holds([Some(shadow)], ["shadow"]);
      assert Holds(gbuffers, GbuffersProgramNames);
      assert Holds([Some(gbuffersWater), Some(gbuffersHandWater)], ["gbuffers_water", "gbuffers_hand_water"]);
      assert Holds([Some(compositeFinal)], ["final"]);
      HoldsAppend([Some(shadow)], ["shadow"], shadowcomp[..], ArrayProgramNames("shadowcomp"));
      var s, n := [Some(shadow)] + shadowcomp[..], ["shadow"] + ArrayProgramNames("shadowcomp");
      HoldsAppend(s, n, prepare[..], ArrayProgramNames("prepare"));
      s, n := s + prepare[..], n + ArrayProgramNames("prepare");
      HoldsAppend(s, n, gbuffers, GbuffersProgramNames);
      s, n := s + gbuffers, n + GbuffersProgramNames;
      HoldsAppend(s, n, deferred[..], ArrayProgramNames("deferred"));
      s, n := s + deferred[..], n + ArrayProgramNames("deferred");
      HoldsAppend(s, n, [Some(gbuffersWater), Some(gbuffersHandWater)], ["gbuffers_water", "gbuffers_hand_water"]);
      s, n := s + [Some(gbuffersWater), Some(gbuffersHandWater)], n + ["gbuffers_water", "gbuffers_hand_water"];
      HoldsAppend(s, n, composite[..], ArrayProgramNames("composite"));
      s, n := s + composite[..], n + ArrayProgramNames("composite");
      HoldsAppend(s, n, [Some(compositeFinal)], ["final"]);
      s, n := s + [Some(compositeFinal)], n + ["final"];
      assert s == ProgramList();
      assert n == VisitOrder();
      NamesOfPresent(s, n);
    }

    /** Walks every slot in the fixed visiting order, skipping missing ones, and
        yields the programs visited and, of those that have one, the fragment
        sources scanned for directives. */
    method LocateDirectives() returns (visited: seq<ProgramSource>, scanned: seq<string>)
      ensures visited == Present(ProgramList())
      ensures scanned == FragmentSources(visited)
    {
      var programs: seq<Option<ProgramSource>> := [];
      programs := programs + [Some(shadow)];
      programs := programs + shadowcomp[..];
      programs := programs + prepare[..];
      programs := programs + GbuffersSlots();
      programs := programs + deferred[..];
      programs := programs + [Some(gbuffersWater)];
      programs := programs + [Some(gbuffersHandWater)];
      programs := programs + composite[..];
      programs := programs + [Some(compositeFinal)];
      assert programs == ProgramList();

      visited, scanned := [], [];
      for i := 0 to |programs|
        invariant visited == Present(programs[..i])
        invariant scanned == FragmentSources(visited)
      {
        assert programs[..i + 1][..i] == programs[..i];
        var source := programs[i];
        if source.None? {
          continue;
        }
        assert (visited + [source.value])[..|visited|] == visited;
        visited := visited + [source.value];
        if source.value.fragmentSource.Some? {
          scanned := scanned + [source.value.fragmentSource.value];
        }
      }
      assert programs[..|programs|] == programs;
    }

    method GetShadowComposite() returns (r: array<Option<ProgramSource>>)
      ensures r == shadowcomp
    {
      return shadowcomp;
    }

    method GetPrepare() returns (r: array<Option<ProgramSource>>)
      ensures r == prepare
    {
      return prepare;
    }

    method GetDeferred() returns (r: array<Option<ProgramSource>>)
      ensures r == deferred
    {
      return deferred;
    }

    method GetComposite() returns (r: array<Option<ProgramSource>>)
      ensures r == composite
    {
      return composite;
    }
  }

  /** The array holds, in each of its 16 slots, the program of the matching name. */
  ghost predicate ArrayHolds(a: array<Option<ProgramSource>>, name: string)
    reads a
  {
    Holds(a[..], ArrayProgramNames(name))
  }
}
