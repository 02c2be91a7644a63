/**
 * MaterialManager (src/renderer/materialmanager.cpp): the Wavefront MTL
 * parser over whitespace-tokenised lines, the material list and its
 * name index, and the two lookups. A material pointer is modelled as the
 * material's index in the list (`MaterialKey`), nullptr as None.
 */
module Materials {
  import opened Wrappers
  import opened LinearAlgebra
  import opened GpuBuffers
  import opened Textures

  /** `const Material*`: None is nullptr, Some(i) is &materials[i]. */
  type MaterialKey = Option<nat>

  datatype Material = Material(name: string, diffuseTexture: Option<TextureRef>, descriptorSet: Option<Handle>,
                               diffuseColor: Vec4, hasTexture: bool)

  /** One line of the file, split at whitespace. */
  type Line = seq<string>

  /** `iss >> token` for the k-th token: the empty string once the line is exhausted. */
  function Token(line: Line, k: nat): string {
    if k < |line| then line[k] else ""
  }

  /** Material() with the name set: no texture, no descriptor set, zero colour, hasTexture false. */
  function FreshMaterial(name: string): Material {
    Material(name, None, None, Vec4(0.0, 0.0, 0.0, 0.0), false)
  }

  /** The parser's state: output list and index, the open material, and the texture cache it fills. */
  datatype ParseState = ParseState(materials: seq<Material>, nameToIndex: map<string, nat>,
                                   current: Material, hasMaterial: bool, cache: map<string, Texture>)

  /** The finalizeMaterial closure: store the open material, with the default texture if it has none. */
  function Finalize(s: ParseState): ParseState {
    if !s.hasMaterial then s
    else
      var m := if s.current.diffuseTexture.None? then s.current.(diffuseTexture := Some(DefaultTexture)) else s.current;
      s.(materials := s.materials + [m], nameToIndex := s.nameToIndex[m.name := |s.materials|],
         current := m, hasMaterial := false)
  }

  /** One iteration of the line loop. */
  function Step(s: ParseState, line: Line, basePath: string, created: string -> Option<Texture>): ParseState {
    var token := Token(line, 0);
    if token == "newmtl" then
      Finalize(s).(current := FreshMaterial(Token(line, 1)), hasMaterial := true)
    else if token == "map_Kd" && s.hasMaterial then
      var fullPath := basePath + Token(line, 1);
      var (cache, ref) := Load(s.cache, fullPath, created(fullPath));
      s.(current := s.current.(diffuseTexture := Some(ref)), cache := cache)
    else
      s
  }

  /** The line loop over a whole file. */
  function Steps(s: ParseState, lines: seq<Line>, basePath: string, created: string -> Option<Texture>): ParseState
    decreases |lines|
  {
    if |lines| == 0 then s
    else Step(Steps(s, lines[..|lines| - 1], basePath, created), lines[|lines| - 1], basePath, created)
  }

  /** parseMtlFile on an opened file: the loop, then the final finalizeMaterial. */
  function Parse(s: ParseState, lines: seq<Line>, basePath: string, created: string -> Option<Texture>): ParseState {
    Finalize(Steps(s, lines, basePath, created))
  }

  /** The names given on `newmtl` lines, in file order. */
  function NewmtlNames(lines: seq<Line>): seq<string>
    decreases |lines|
  {
    if |lines| == 0 then []
    else
      var last := lines[|lines| - 1];
      NewmtlNames(lines[..|lines| - 1]) + (if Token(last, 0) == "newmtl" then [Token(last, 1)] else [])
  }

  function Names(ms: seq<Material>): (names: seq<string>)
    ensures |names| == |ms|
    ensures forall i :: 0 <= i < |ms| ==> names[i] == ms[i].name
  {
    seq(|ms|, (i: nat) requires i < |ms| => ms[i].name)
  }

  /** Every indexed name designates a material with that name. */
  predicate IndexSound(materials: seq<Material>, nameToIndex: map<string, nat>) {
    forall n :: n in nameToIndex ==> nameToIndex[n] < |materials| && materials[nameToIndex[n]].name == n
  }

  /** Every material's name is indexed, at that material or a later one with the same name. */
  predicate IndexComplete(materials: seq<Material>, nameToIndex: map<string, nat>) {
    forall i :: 0 <= i < |materials| ==> materials[i].name in nameToIndex && i <= nameToIndex[materials[i].name]
  }

  /** Properties every stored (and the open) material keeps. */
  predicate WellFormed(s: ParseState) {
    && IndexSound(s.materials, s.nameToIndex)
    && IndexComplete(s.materials, s.nameToIndex)
    && (forall i :: 0 <= i < |s.materials| ==>
          s.materials[i].diffuseTexture.Some? && !s.materials[i].hasTexture && s.materials[i].descriptorSet.None?)
    && !s.current.hasTexture && s.current.descriptorSet.None?
  }

  /** The open material, if any, as a list. */
  function Pending(s: ParseState): seq<string> {
    if s.hasMaterial then [s.current.name] else []
  }

  lemma FinalizeProperties(s: ParseState)
    ensures WellFormed(s) ==> WellFormed(Finalize(s))
    ensures Names(Finalize(s).materials) == Names(s.materials) + Pending(s)
    ensures !Finalize(s).hasMaterial
    ensures Finalize(s).cache == s.cache
    ensures Finalize(s).materials[..|s.materials|] == s.materials
  {
    if s.hasMaterial {
      var f := Finalize(s);
      assert Names(f.materials) == Names(s.materials) + [s.current.name];
      assert f.materials[..|s.materials|] == s.materials;
      if WellFormed(s) {
        FinalizeKeepsIndex(s);
      }
    }
  }

  /** Storing the open material keeps the index sound and complete. */
  lemma FinalizeKeepsIndex(s: ParseState)
    requires s.hasMaterial && WellFormed(s)
    ensures WellFormed(Finalize(s))
  {
    var f := Finalize(s);
    var n := |s.materials|;
    assert |f.materials| == n + 1 && f.materials[n].name == s.current.name;
    forall i | 0 <= i < n
      ensures f.materials[i] == s.materials[i]
    {
    }
    forall k | k in f.nameToIndex
      ensures f.nameToIndex[k] < |f.materials| && f.materials[f.nameToIndex[k]].name == k
    {
      if k != s.current.name {
        assert f.nameToIndex[k] == s.nameToIndex[k];
      }
    }
    forall i | 0 <= i < |f.materials|
      ensures f.materials[i].name in f.nameToIndex && i <= f.nameToIndex[f.materials[i].name]
    {
      if i < n && f.materials[i].name != s.current.name {
        assert f.materials[i] == s.materials[i];
      }
    }
  }

  lemma StepProperties(s: ParseState, line: Line, basePath: string, created: string -> Option<Texture>)
    ensures WellFormed(s) ==> WellFormed(Step(s, line, basePath, created))
    ensures var t := Step(s, line, basePath, created);
            Names(t.materials) + Pending(t) ==
            Names(s.materials) + Pending(s) + (if Token(line, 0) == "newmtl" then [Token(line, 1)] else [])
    ensures Step(s, line, basePath, created).materials[..|s.materials|] == s.materials
  {
    FinalizeProperties(s);
    var token := Token(line, 0);
    if token == "newmtl" {
    } else if token == "map_Kd" && s.hasMaterial {
    } else {
    }
  }

  /** The loop keeps `WellFormed` and outputs the newmtl names in order, with earlier output untouched. */
  lemma {:induction false} StepsProperties(s: ParseState, lines: seq<Line>, basePath: string, created: string -> Option<Texture>)
    requires WellFormed(s)
    ensures var t := Steps(s, lines, basePath, created);
            && WellFormed(t)
            && Names(t.materials) + Pending(t) == Names(s.materials) + Pending(s) + NewmtlNames(lines)
            && |s.materials| <= |t.materials|
            && t.materials[..|s.materials|] == s.materials
    decreases |lines|
  {
    if |lines| > 0 {
      var pre := lines[..|lines| - 1];
      var last := lines[|lines| - 1];
      StepsProperties(s, pre, basePath, created);
      var mid := Steps(s, pre, basePath, created);
      StepProperties(mid, last, basePath, created);
      var t := Step(mid, last, basePath, created);
      assert |mid.materials| <= |t.materials| by {
        assert |Names(t.materials) + Pending(t)| >= |Names(mid.materials) + Pending(mid)|;
        if mid.hasMaterial && Token(last, 0) != "newmtl" && !t.hasMaterial { assert false; }
      }
      assert t.materials[..|mid.materials|] == mid.materials;
      assert t.materials[..|s.materials|] == mid.materials[..|s.materials|];
    }
  }

  /** A state with nothing parsed yet and no open material. */
  function StartState(materials: seq<Material>, nameToIndex: map<string, nat>, cache: map<string, Texture>): ParseState {
    ParseState(materials, nameToIndex, FreshMaterial(""), false, cache)
  }

  /** The positions of the `newmtl` lines, in file order. */
  function NewmtlAt(lines: seq<Line>): (r: seq<nat>)
    ensures forall k :: 0 <= k < |r| ==> r[k] < |lines| && Token(lines[r[k]], 0) == "newmtl"
    decreases |lines|
  {
    if |lines| == 0 then []
    else
      var pre := NewmtlAt(lines[..|lines| - 1]);
      pre + (if Token(lines[|lines| - 1], 0) == "newmtl" then [|lines| - 1] else [])
  }

  /** The last position in [lo, hi) of a `map_Kd` line; None when there is none. */
  function LastMapKd(lines: seq<Line>, lo: nat, hi: nat): (r: Option<nat>)
    requires hi <= |lines|
    ensures r.Some? ==> lo <= r.value < hi && Token(lines[r.value], 0) == "map_Kd"
    ensures r.Some? ==> forall j :: r.value < j < hi ==> Token(lines[j], 0) != "map_Kd"
    ensures r.None? ==> forall j :: lo <= j < hi ==> Token(lines[j], 0) != "map_Kd"
    decreases hi
  {
    if hi <= lo then None
    else if Token(lines[hi - 1], 0) == "map_Kd" then Some(hi - 1)
    else LastMapKd(lines, lo, hi - 1)
  }

  /** LastMapKd only reads the lines below `hi`. */
  lemma {:induction false} LastMapKdAgree(a: seq<Line>, b: seq<Line>, lo: nat, hi: nat)
    requires hi <= |a| && hi <= |b| && a[..hi] == b[..hi]
    ensures LastMapKd(a, lo, hi) == LastMapKd(b, lo, hi)
    decreases hi
  {
    if lo < hi {
      assert a[hi - 1] == a[..hi][hi - 1] == b[hi - 1];
      assert a[..hi - 1] == b[..hi - 1];
      LastMapKdAgree(a, b, lo, hi - 1);
    }
  }

  /** The lines of material i: from after its `newmtl` line up to the next one, or to the end of the file. */
  function SectionEnd(lines: seq<Line>, i: nat): nat
    requires i < |NewmtlAt(lines)|
  {
    if i + 1 < |NewmtlAt(lines)| then NewmtlAt(lines)[i + 1] else |lines|
  }

  /** The texture a `map_Kd` line at position j of a file yields. */
  function MapKdTexture(lines: seq<Line>, j: nat, basePath: string, cache0: map<string, Texture>,
                        created: string -> Option<Texture>): TextureRef
    requires j < |lines|
  {
    Resolved(cache0, created, basePath + Token(lines[j], 1))
  }

  /**
   * The texture material i of a file should get: the default texture when
   * no `map_Kd` line lies in its section, otherwise what the last one
   * there resolves to.
   */
  function SectionTexture(lines: seq<Line>, i: nat, basePath: string, cache0: map<string, Texture>,
                          created: string -> Option<Texture>): TextureRef
    requires i < |NewmtlAt(lines)|
  {
    match LastMapKd(lines, NewmtlAt(lines)[i] + 1, SectionEnd(lines, i))
    case None => DefaultTexture
    case Some(j) => MapKdTexture(lines, j, basePath, cache0, created)
  }

  /** The texture the open (last) material has so far: None until a `map_Kd` line of its section. */
  function OpenTexture(lines: seq<Line>, basePath: string, cache0: map<string, Texture>,
                       created: string -> Option<Texture>): Option<TextureRef>
    requires |NewmtlAt(lines)| > 0
  {
    var at := NewmtlAt(lines);
    match LastMapKd(lines, at[|at| - 1] + 1, |lines|)
    case None => None
    case Some(j) => Some(MapKdTexture(lines, j, basePath, cache0, created))
  }

  /** How the loop's state after `lines` relates to the section functions. */
  predicate TexturesTracked(lines: seq<Line>, t: ParseState, basePath: string, cache0: map<string, Texture>,
                            created: string -> Option<Texture>) {
    && GrownFrom(t.cache, cache0, created)
    && |t.materials| + (if t.hasMaterial then 1 else 0) == |NewmtlAt(lines)|
    && (t.hasMaterial <==> |NewmtlAt(lines)| > 0)
    && (forall i :: 0 <= i < |t.materials| ==>
          t.materials[i].diffuseTexture == Some(SectionTexture(lines, i, basePath, cache0, created)))
    && (t.hasMaterial ==> t.current.diffuseTexture == OpenTexture(lines, basePath, cache0, created))
  }

  /** The section texture of an earlier material is the same in a file with one more line. */
  lemma SectionTextureExtend(pre: seq<Line>, line: Line, i: nat, basePath: string, cache0: map<string, Texture>,
                             created: string -> Option<Texture>)
    requires i + 1 < |NewmtlAt(pre)|
    ensures var lines := pre + [line];
            i + 1 < |NewmtlAt(lines)| && NewmtlAt(lines)[..|NewmtlAt(pre)|] == NewmtlAt(pre) &&
            SectionTexture(lines, i, basePath, cache0, created) == SectionTexture(pre, i, basePath, cache0, created)
  {
    var lines := pre + [line];
    assert lines[..|lines| - 1] == pre;
    var at := NewmtlAt(pre);
    assert NewmtlAt(lines)[..|at|] == at;
    assert lines[..at[i + 1]] == pre[..at[i + 1]];
    LastMapKdAgree(lines, pre, at[i] + 1, at[i + 1]);
  }

  /** One more line keeps the section textures of the materials already stored. */
  lemma StoredSectionsExtend(pre: seq<Line>, line: Line, t: ParseState, basePath: string, cache0: map<string, Texture>,
                             created: string -> Option<Texture>)
    requires TexturesTracked(pre, t, basePath, cache0, created)
    ensures var lines := pre + [line];
            && NewmtlAt(lines)[..|NewmtlAt(pre)|] == NewmtlAt(pre)
            && forall i :: 0 <= i < |t.materials| ==>
                 t.materials[i].diffuseTexture == Some(SectionTexture(lines, i, basePath, cache0, created))
  {
    var lines := pre + [line];
    assert lines[..|lines| - 1] == pre;
    forall i | 0 <= i < |t.materials|
      ensures t.materials[i].diffuseTexture == Some(SectionTexture(lines, i, basePath, cache0, created))
    {
      SectionTextureExtend(pre, line, i, basePath, cache0, created);
    }
  }

  /** A `newmtl` line ends the open material's section: the texture it stores is that section's. */
  lemma CloseSection(pre: seq<Line>, line: Line, t: ParseState, basePath: string, cache0: map<string, Texture>,
                     created: string -> Option<Texture>)
    requires TexturesTracked(pre, t, basePath, cache0, created)
    requires Token(line, 0) == "newmtl" && t.hasMaterial
    ensures var lines := pre + [line];
            && |t.materials| + 1 < |NewmtlAt(lines)|
            && Finalize(t).materials[|t.materials|].diffuseTexture ==
               Some(SectionTexture(lines, |t.materials|, basePath, cache0, created))
  {
    var lines := pre + [line];
    var n := |pre|;
    assert lines[..n] == pre;
    var at := NewmtlAt(pre);
    var i := |t.materials|;
    assert NewmtlAt(lines) == at + [n];
    LastMapKdAgree(lines, pre, at[i] + 1, n);
    assert SectionEnd(lines, i) == n;
  }

  /** A `newmtl` line closes the open material's section and opens an empty one. */
  lemma NewmtlTracksTextures(pre: seq<Line>, line: Line, t: ParseState, basePath: string, cache0: map<string, Texture>,
                             created: string -> Option<Texture>)
    requires TexturesTracked(pre, t, basePath, cache0, created)
    requires Token(line, 0) == "newmtl"
    ensures TexturesTracked(pre + [line], Step(t, line, basePath, created), basePath, cache0, created)
  {
    var lines := pre + [line];
    var n := |pre|;
    assert lines[..n] == pre;
    var at := NewmtlAt(pre);
    assert NewmtlAt(lines) == at + [n];
    StoredSectionsExtend(pre, line, t, basePath, cache0, created);
    var f := Finalize(t);
    var u := Step(t, line, basePath, created);
    assert u == f.(current := FreshMaterial(Token(line, 1)), hasMaterial := true);
    assert LastMapKd(lines, n + 1, n + 1) == None;
    assert u.current.diffuseTexture == OpenTexture(lines, basePath, cache0, created);
    if t.hasMaterial {
      var i := |t.materials|;
      CloseSection(pre, line, t, basePath, cache0, created);
      assert f.materials == t.materials + [f.materials[i]];
    } else {
      assert f == t;
    }
  }

  /** A line other than `newmtl` extends the open section and keeps the stored materials. */
  lemma OtherLineTracksTextures(pre: seq<Line>, line: Line, t: ParseState, basePath: string, cache0: map<string, Texture>,
                                created: string -> Option<Texture>)
    requires TexturesTracked(pre, t, basePath, cache0, created)
    requires Token(line, 0) != "newmtl"
    ensures TexturesTracked(pre + [line], Step(t, line, basePath, created), basePath, cache0, created)
  {
    var lines := pre + [line];
    var n := |pre|;
    assert lines[..n] == pre;
    var at := NewmtlAt(pre);
    assert NewmtlAt(lines) == at;
    StoredSectionsExtend(pre, line, t, basePath, cache0, created);
    if t.hasMaterial {
      var lo := at[|at| - 1] + 1;
      if Token(line, 0) == "map_Kd" {
        LoadResolves(t.cache, cache0, created, basePath + Token(line, 1));
        assert LastMapKd(lines, lo, n + 1) == Some(n);
      } else {
        LastMapKdAgree(lines, pre, lo, n);
        assert LastMapKd(lines, lo, n + 1) == LastMapKd(pre, lo, n);
      }
    }
  }

  /** The whole line loop keeps the state tracked, from a cleared start. */
  lemma {:induction false} StepsTrackTextures(lines: seq<Line>, basePath: string, cache0: map<string, Texture>,
                                              created: string -> Option<Texture>)
    ensures TexturesTracked(lines, Steps(StartState([], map[], cache0), lines, basePath, created), basePath, cache0, created)
    decreases |lines|
  {
    if |lines| > 0 {
      var pre := lines[..|lines| - 1];
      StepsTrackTextures(pre, basePath, cache0, created);
      var t := Steps(StartState([], map[], cache0), pre, basePath, created);
      if Token(lines[|lines| - 1], 0) == "newmtl" {
        NewmtlTracksTextures(pre, lines[|lines| - 1], t, basePath, cache0, created);
      } else {
        OtherLineTracksTextures(pre, lines[|lines| - 1], t, basePath, cache0, created);
      }
      assert pre + [lines[|lines| - 1]] == lines;
    }
  }

  /**
   * After clearing, the parser yields exactly one material per `newmtl`
   * line, named by the token after it, in file order; every name maps to
   * a material of that name, the last one when a name repeats; every
   * material has a texture (ParseTextures says which one); none has
   * hasTexture set and none has a descriptor set yet.
   */
  lemma ParseFromEmpty(lines: seq<Line>, basePath: string, created: string -> Option<Texture>, cache: map<string, Texture>)
    ensures var r := Parse(StartState([], map[], cache), lines, basePath, created);
            && Names(r.materials) == NewmtlNames(lines)
            && |r.materials| == |NewmtlNames(lines)|
            && IndexSound(r.materials, r.nameToIndex)
            && IndexComplete(r.materials, r.nameToIndex)
            && (forall i :: 0 <= i < |r.materials| ==>
                  r.materials[i].diffuseTexture.Some? && !r.materials[i].hasTexture && r.materials[i].descriptorSet.None?)
  {
    var s := StartState([], map[], cache);
    assert WellFormed(s);
    assert Names(s.materials) + Pending(s) == [];
    StepsProperties(s, lines, basePath, created);
    var t := Steps(s, lines, basePath, created);
    assert Names(t.materials) + Pending(t) == NewmtlNames(lines);
    FinalizeProperties(t);
    var r := Finalize(t);
    assert Names(r.materials) == NewmtlNames(lines);
    assert WellFormed(r);
  }

  /**
   * After clearing, material i is the i-th `newmtl` section's, and its
   * texture is the default one when no `map_Kd` line lies in its section,
   * otherwise what the last `map_Kd` line there resolves to.
   */
  lemma ParseTextures(lines: seq<Line>, basePath: string, created: string -> Option<Texture>, cache: map<string, Texture>)
    ensures var r := Parse(StartState([], map[], cache), lines, basePath, created);
            && |r.materials| == |NewmtlAt(lines)|
            && (forall i :: 0 <= i < |r.materials| ==>
                  r.materials[i].diffuseTexture == Some(SectionTexture(lines, i, basePath, cache, created)))
  {
    var t := Steps(StartState([], map[], cache), lines, basePath, created);
    StepsTrackTextures(lines, basePath, cache, created);
    var r := Finalize(t);
    if t.hasMaterial {
      var i := |t.materials|;
      assert SectionEnd(lines, i) == |lines|;
      assert r.materials == t.materials + [r.materials[i]];
    }
  }

  /** With a name repeated, the index designates the last material of that name. */
  lemma IndexDesignatesLast(materials: seq<Material>, nameToIndex: map<string, nat>, i: nat, j: nat)
    requires IndexSound(materials, nameToIndex) && IndexComplete(materials, nameToIndex)
    requires i < j < |materials| && materials[i].name == materials[j].name
    ensures nameToIndex[materials[i].name] != i
  {
    assert j <= nameToIndex[materials[j].name];
  }

  /** A line whose first token is neither `newmtl` nor an applicable `map_Kd` changes nothing. */
  lemma IgnoredLinesChangeNothing(s: ParseState, line: Line, basePath: string, created: string -> Option<Texture>)
    requires Token(line, 0) != "newmtl"
    requires Token(line, 0) != "map_Kd" || !s.hasMaterial
    ensures Step(s, line, basePath, created) == s
  {
  }

  /** Lines after which only later `map_Kd` lines and ignored lines follow keep the last texture. */
  lemma MapKdLastWins(s: ParseState, path1: string, path2: string, basePath: string, created: string -> Option<Texture>)
    requires s.hasMaterial
    ensures var t := Step(Step(s, ["map_Kd", path1], basePath, created), ["map_Kd", path2], basePath, created);
            var s1 := Step(s, ["map_Kd", path1], basePath, created);
            t.current.diffuseTexture == Some(Load(s1.cache, basePath + path2, created(basePath + path2)).1)
            && t.current.name == s.current.name
  {
  }

  /** A `map_Kd` before any `newmtl` is ignored. */
  lemma MapKdBeforeNewmtlIgnored(materials: seq<Material>, nameToIndex: map<string, nat>, cache: map<string, Texture>,
                                 path: string, basePath: string, created: string -> Option<Texture>)
    ensures var s := StartState(materials, nameToIndex, cache);
            Step(s, ["map_Kd", path], basePath, created) == s
  {
  }

  /** The loop over a prefix and one more line: the prefix's state, stepped once. */
  lemma StepsExtend(s: ParseState, a: seq<Line>, line: Line, basePath: string, created: string -> Option<Texture>,
                    mid: ParseState, next: ParseState)
    requires Steps(s, a, basePath, created) == mid && Step(mid, line, basePath, created) == next
    ensures Steps(s, a + [line], basePath, created) == next
  {
    assert (a + [line])[..|a|] == a;
  }

  /** The six lines of the example file below. */
  function ExampleLines(): seq<Line> {
    [["newmtl", "A"], ["map_Kd", "a1.png"], ["map_Kd", "a2.png"], ["#", "note"], ["newmtl", "B"], ["map_Bump", "n.png"]]
  }

  /** The parser states of the example, after each of its lines. */
  function ExampleState(t: Texture, k: nat): ParseState {
    var mA := FreshMaterial("A").(diffuseTexture := Some(Cached("tex/a2.png")));
    if k == 0 then StartState([], map[], map[])
    else if k == 1 then ParseState([], map[], FreshMaterial("A"), true, map[])
    else if k == 2 then
      ParseState([], map[], FreshMaterial("A").(diffuseTexture := Some(Cached("tex/a1.png"))), true, map["tex/a1.png" := t])
    else if k <= 4 then ParseState([], map[], mA, true, map["tex/a1.png" := t, "tex/a2.png" := t])
    else ParseState([mA], map["A" := 0], FreshMaterial("B"), true, map["tex/a1.png" := t, "tex/a2.png" := t])
  }

  /** Each line of the example takes the parser from one of those states to the next. */
  lemma ExampleStep(t: Texture, created: string -> Option<Texture>, k: nat)
    requires forall p :: created(p) == Some(t)
    requires k < 6
    ensures Step(ExampleState(t, k), ExampleLines()[k], "tex/", created) == ExampleState(t, k + 1)
  {
    assert "tex/" + "a1.png" == "tex/a1.png";
    assert "tex/" + "a2.png" == "tex/a2.png";
  }

  /** The loop over the example file, with every texture load succeeding. */
  lemma ExampleFileLoop(t: Texture, created: string -> Option<Texture>)
    requires forall p :: created(p) == Some(t)
    ensures Steps(ExampleState(t, 0), ExampleLines(), "tex/", created) == ExampleState(t, 6)
  {
    var lines := ExampleLines();
    var s0 := ExampleState(t, 0);
    var k := 0;
    assert lines[..0] == [];
    while k < 6
      invariant k <= 6
      invariant Steps(s0, lines[..k], "tex/", created) == ExampleState(t, k)
    {
      ExampleStep(t, created, k);
      assert lines[..k + 1] == lines[..k] + [lines[k]];
      StepsExtend(s0, lines[..k], lines[k], "tex/", created, ExampleState(t, k), ExampleState(t, k + 1));
      k := k + 1;
    }
    assert lines[..6] == lines;
  }

  /**
   * A two-material file: the second map_Kd of A wins, B gets the default
   * texture, the map_Bump line and the comment line change nothing, and
   * the texture cache gains both of A's paths.
   */
  lemma ExampleFile(t: Texture)
    ensures var r := Parse(StartState([], map[], map[]), ExampleLines(), "tex/", _ => Some(t));
            && |r.materials| == 2
            && r.materials[0].name == "A" && r.materials[0].diffuseTexture == Some(Cached("tex/a2.png"))
            && r.materials[1].name == "B" && r.materials[1].diffuseTexture == Some(DefaultTexture)
            && r.nameToIndex == map["A" := 0, "B" := 1]
            && r.cache.Keys == {"tex/a1.png", "tex/a2.png"}
  {
    var created: string -> Option<Texture> := _ => Some(t);
    ExampleFileLoop(t, created);
    assert ExampleState(t, 6).materials == [FreshMaterial("A").(diffuseTexture := Some(Cached("tex/a2.png")))];
  }

  /** The material a name designates through a name index: its index, or null for an unknown name. */
  function LookupMaterial(nameToIndex: map<string, nat>, name: string): MaterialKey {
    if name !in nameToIndex then None else Some(nameToIndex[name])
  }

  class MaterialManager {
    var materials: seq<Material>
    var materialNameToIndex: map<string, nat>
    const textureManager: TextureManager

    ghost predicate Valid()
      reads this
    {
      IndexSound(materials, materialNameToIndex)
    }

    constructor(textureManager: TextureManager)
      ensures Valid() && materials == [] && materialNameToIndex == map[]
      ensures this.textureManager == textureManager
    {
      materials := [];
      materialNameToIndex := map[];
      this.textureManager := textureManager;
    }

    /** getMaterial: null past the end. */
    function GetMaterial(index: nat): (r: MaterialKey)
      reads this
      ensures r.Some? <==> index < |materials|
      ensures r.Some? ==> r.value == index
    {
      if index >= |materials| then None else Some(index)
    }

    /** getMaterialByName: null for an unknown name, otherwise a material of that name. */
    function GetMaterialByName(name: string): (r: MaterialKey)
      reads this
      requires Valid()
      ensures r.Some? <==> name in materialNameToIndex
      ensures r.Some? ==> r.value < |materials| && materials[r.value].name == name
    {
      LookupMaterial(materialNameToIndex, name)
    }

    /** The finalizeMaterial closure over the open material. */
    method FinalizeMaterial(current: Material, hasMaterial: bool) returns (current': Material, hasMaterial': bool)
      modifies this
      ensures var f := Finalize(ParseState(old(materials), old(materialNameToIndex), current, hasMaterial, textureManager.textureCache));
              ParseState(materials, materialNameToIndex, current', hasMaterial', textureManager.textureCache) == f
    {
      current', hasMaterial' := current, hasMaterial;
      if hasMaterial' {
        if current'.diffuseTexture.None? {
          current' := current'.(diffuseTexture := Some(textureManager.GetDefaultTexture()));
        }
        materialNameToIndex := materialNameToIndex[current'.name := |materials|];
        materials := materials + [current'];
        hasMaterial' := false;
      }
    }

    /**
     * parseMtlFile: `file` is None when the file at `mtlFilePath` cannot
     * be opened, else its tokenised lines; `created` is
     * createTextureFromFile's outcome for each path. Materials are
     * appended to the current list.
     */
    method ParseMtlFile(mtlFilePath: string, file: Option<seq<Line>>, basePath: string, created: string -> Option<Texture>)
      returns (r: Outcome)
      modifies this, textureManager
      ensures file.None? ==> r == Fail("Failed to open MTL file: " + mtlFilePath) && materials == old(materials) && materialNameToIndex == old(materialNameToIndex)
                             && textureManager.textureCache == old(textureManager.textureCache)
      ensures file.Some? ==>
                (var p := Parse(StartState(old(materials), old(materialNameToIndex), old(textureManager.textureCache)),
                                file.value, basePath, created);
                 r.Ok? && materials == p.materials && materialNameToIndex == p.nameToIndex
                 && textureManager.textureCache == p.cache)
      ensures textureManager.defaultTexture == old(textureManager.defaultTexture)
    {
      if file.None? {
        return Fail("Failed to open MTL file: " + mtlFilePath);
      }
      var lines := file.value;
      ghost var start := StartState(materials, materialNameToIndex, textureManager.textureCache);
      var currentMaterial := FreshMaterial("");
      var hasMaterial := false;
      var i := 0;
      while i < |lines|
        invariant 0 <= i <= |lines|
        invariant ParseState(materials, materialNameToIndex, currentMaterial, hasMaterial, textureManager.textureCache)
                  == Steps(start, lines[..i], basePath, created)
        invariant textureManager.defaultTexture == old(textureManager.defaultTexture)
      {
        var line := lines[i];
        assert lines[..i + 1][..i] == lines[..i];
        var token := Token(line, 0);
        if token == "newmtl" {
          currentMaterial, hasMaterial := FinalizeMaterial(currentMaterial, hasMaterial);
          var materialName := Token(line, 1);
          currentMaterial := FreshMaterial(materialName);
          hasMaterial := true;
        } else if token == "map_Kd" && hasMaterial {
          var texturePath := Token(line, 1);
          var fullPath := basePath + texturePath;
          var ref := textureManager.LoadTexture(fullPath, created(fullPath));
          currentMaterial := currentMaterial.(diffuseTexture := Some(ref));
        } else if token == "map_Disp" || token == "map_Bump" || token == "map_d" || token == "map_Ka" {
        }
        i := i + 1;
      }
      assert lines[..i] == lines;
      currentMaterial, hasMaterial := FinalizeMaterial(currentMaterial, hasMaterial);
      r := Ok;
    }

    /**
     * loadMaterialsFromFile: clear, parse, then give each material a
     * descriptor set. Both steps are only attempted for a non-empty
     * list: `poolCreated` says whether vkCreateDescriptorPool succeeds,
     * and `descriptorSets` is None when vkAllocateDescriptorSets fails,
     * else the handle allocated for each index.
     */
    method LoadMaterialsFromFile(mtlFilePath: string, file: Option<seq<Line>>, basePath: string,
                                 created: string -> Option<Texture>, poolCreated: bool,
                                 descriptorSets: Option<nat -> Handle>)
      returns (r: Outcome)
      modifies this, textureManager
      ensures Valid()
      ensures file.None? ==> r == Fail("Failed to open MTL file: " + mtlFilePath)
                             && materials == [] && materialNameToIndex == map[]
      ensures file.Some? ==>
              var p := Parse(StartState([], map[], old(textureManager.textureCache)), file.value, basePath, created);
              && Names(materials) == NewmtlNames(file.value)
              && materialNameToIndex == p.nameToIndex
              && textureManager.textureCache == p.cache
              && (r.Ok? <==> (|p.materials| == 0 || (poolCreated && descriptorSets.Some?)))
              && (|p.materials| > 0 && !poolCreated ==> r == Fail("Failed to create descriptor pool!"))
              && (|p.materials| > 0 && poolCreated && descriptorSets.None? ==> r == Fail("Failed to allocate descriptor sets!"))
              && |materials| == |p.materials|
              && (forall i :: 0 <= i < |materials| ==>
                    materials[i] == p.materials[i].(descriptorSet := if r.Ok? then Some(descriptorSets.value(i)) else None))
    {
      materials := [];
      materialNameToIndex := map[];
      r := ParseMtlFile(mtlFilePath, file, basePath, created);
      if r.Fail? {
        return;
      }
      ghost var p := materials;
      ghost var index := materialNameToIndex;
      ghost var cache := textureManager.textureCache;
      ParseFromEmpty(file.value, basePath, created, old(textureManager.textureCache));
      if |materials| == 0 {
        return;
      }
      if !poolCreated {
        return Fail("Failed to create descriptor pool!");
      }
      if descriptorSets.None? {
        return Fail("Failed to allocate descriptor sets!");
      }
      var sets := descriptorSets.value;
      var i := 0;
      while i < |materials|
        invariant 0 <= i <= |materials| && |materials| == |p|
        invariant forall j :: 0 <= j < |materials| ==>
                    materials[j] == p[j].(descriptorSet := if j < i then Some(sets(j)) else p[j].descriptorSet)
        invariant Names(materials) == Names(p)
        invariant materialNameToIndex == index && textureManager.textureCache == cache
      {
        materials := materials[i := materials[i].(descriptorSet := Some(sets(i)))];
        i := i + 1;
      }
      assert IndexSound(p, materialNameToIndex);
      forall n | n in materialNameToIndex
        ensures materialNameToIndex[n] < |materials| && materials[materialNameToIndex[n]].name == n
      {
        assert Names(materials)[materialNameToIndex[n]] == Names(p)[materialNameToIndex[n]];
      }
    }
  }
}
