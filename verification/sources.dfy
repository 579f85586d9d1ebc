/**
 * The configuration sources of DefaultClientBuilder and their last-write-wins merge.
 * Reading one source (resource lookup, file I/O and the properties, JSON and YAML parsers) is a
 * parameter `read`; since every source is wrapped so that a missing or unreadable origin yields an
 * empty mapping, `read` is total.
 */
module Sources {
  import opened Strings

  /** The encoding a source is parsed with: properties text, JSON or YAML. */
  datatype Format = PropertiesFormat | JsonFormat | YamlFormat

  /** One configuration origin: a resource location and the parser applied to it. */
  datatype Source = Source(location: string, format: Format)

  type PropertyMap = map<string, string>

  // The names are built by concatenation so that the verifier does not try to evaluate
  // `ReplaceAll` on them symbol by symbol.
  const FileStem := "stormpath"
  const PropertiesFile := FileStem + ".properties"
  /** The scheme prefix of classpath resources. */
  const ClasspathPrefix := "classpath:"
  const BundledLocation := ClasspathPrefix + "com/stormpath/sdk/config/" + PropertiesFile

  /** The home directory followed by the file separator. */
  function UserHome(home: string, sep: char): string {
    home + [sep]
  }

  /** The four base `.properties` locations, lowest precedence first. */
  function BaseLocations(home: string, sep: char): (l: seq<string>)
    ensures |l| == 4 && l[0] == BundledLocation
  {
    [BundledLocation,
     ClasspathPrefix + PropertiesFile,
     UserHome(home, sep) + ".stormpath" + [sep] + PropertiesFile,
     UserHome(home, sep) + PropertiesFile]
  }

  /**
   * Every base location names `stormpath.properties`; the second is on the classpath and the
   * last two are under the home directory.
   */
  lemma BaseLocationsShape(home: string, sep: char)
    ensures var l := BaseLocations(home, sep);
      (forall i :: 0 <= i < 4 ==> EndsWith(l[i], PropertiesFile)) &&
      StartsWith(l[1], ClasspathPrefix) &&
      StartsWith(l[2], UserHome(home, sep)) && StartsWith(l[3], UserHome(home, sep))
  {
    var l, h := BaseLocations(home, sep), UserHome(home, sep);
    assert l[0] == (ClasspathPrefix + "com/stormpath/sdk/config/") + PropertiesFile;
    assert l[2] == (h + ".stormpath" + [sep]) + PropertiesFile;
    assert forall i :: 0 <= i < 4 ==> l[i][|l[i]| - |PropertiesFile|..] == PropertiesFile;
    assert l[1][..|ClasspathPrefix|] == ClasspathPrefix;
    assert l[2][..|h|] == h && l[3][..|h|] == h;
  }

  /**
   * The sources one base location contributes: the location itself, and, when it is a
   * `.properties` location other than the bundled one, its JSON and YAML siblings.
   */
  function Expand(location: string, first: string): (r: seq<Source>)
    ensures |r| == 1 || |r| == 3
    ensures r[0] == Source(location, PropertiesFormat)
    ensures |r| == 3 <==> location != first && EndsWith(location, ".properties")
    ensures |r| == 3 ==> r[1].format == JsonFormat && r[2].format == YamlFormat
  {
    if location != first && EndsWith(location, ".properties") then
      [Source(location, PropertiesFormat),
       Source(ReplaceAll(location, ".properties", ".json"), JsonFormat),
       Source(ReplaceAll(location, ".properties", ".yaml"), YamlFormat)]
    else
      [Source(location, PropertiesFormat)]
  }

  /**
   * The sources of a list of base locations, in order: each location contributes one to three
   * sources, and the first source is the first location read as properties.
   */
  function ExpandAll(locations: seq<string>, first: string): (r: seq<Source>)
    ensures |locations| <= |r| <= 3 * |locations|
    ensures locations != [] ==> r[0] == Source(locations[0], PropertiesFormat)
  {
    if locations == [] then []
    else ExpandAll(locations[..|locations| - 1], first) + Expand(locations[|locations| - 1], first)
  }

  /** Builds the ordered source list, as the builder's constructor does. */
  method EnumerateSources(home: string, sep: char) returns (sources: seq<Source>)
    ensures sources == ExpandAll(BaseLocations(home, sep), BundledLocation)
  {
    var locations := BaseLocations(home, sep);
    sources := [];
    for i := 0 to |locations|
      invariant sources == ExpandAll(locations[..i], locations[0])
    {
      var location := locations[i];
      ghost var before := sources;
      sources := sources + [Source(location, PropertiesFormat)];
      if location != locations[0] && EndsWith(location, ".properties") {
        sources := sources + [Source(ReplaceAll(location, ".properties", ".json"), JsonFormat)];
        sources := sources + [Source(ReplaceAll(location, ".properties", ".yaml"), YamlFormat)];
      }
      assert sources == before + Expand(location, locations[0]);
      ExpandAllSnoc(locations, i, locations[0]);
    }
    assert locations[..|locations|] == locations;
  }

  /** Expanding one more location appends its sources. */
  lemma ExpandAllSnoc(locations: seq<string>, i: int, first: string)
    requires 0 <= i < |locations|
    ensures ExpandAll(locations[..i + 1], first) == ExpandAll(locations[..i], first) + Expand(locations[i], first)
  {
    assert locations[..i + 1][..i] == locations[..i];
  }

  lemma EndsWithProperties(prefix: string)
    ensures EndsWith(prefix + PropertiesFile, ".properties")
  {
    assert (prefix + PropertiesFile)[|prefix| + 9..] == ".properties";
  }

  /**
   * The builder probes ten sources: the bundled properties, then each later `.properties`
   * location immediately followed by its JSON and YAML siblings. The only exception is a home
   * directory that makes the last location spell the bundled one, which the builder compares by
   * string equality.
   */
  lemma {:induction false} DefaultSourceOrder(home: string, sep: char)
    requires UserHome(home, sep) != ClasspathPrefix + "com/stormpath/sdk/config/"
    ensures var s := ExpandAll(BaseLocations(home, sep), BundledLocation);
      var l := BaseLocations(home, sep);
      |s| == 10 &&
      s[0] == Source(l[0], PropertiesFormat) &&
      (forall j :: 1 <= j < 4 ==>
        s[3 * j - 2] == Source(l[j], PropertiesFormat) &&
        s[3 * j - 1] == Source(ReplaceAll(l[j], ".properties", ".json"), JsonFormat) &&
        s[3 * j] == Source(ReplaceAll(l[j], ".properties", ".yaml"), YamlFormat))
  {
    LaterLocationsExpand(home, sep);
    ExpandFour(BaseLocations(home, sep));
  }

  /** Four locations whose last three each get siblings expand to ten sources. */
  lemma ExpandFour(l: seq<string>)
    requires |l| == 4
    requires forall j :: 1 <= j < 4 ==> l[j] != l[0] && EndsWith(l[j], ".properties")
    ensures var s := ExpandAll(l, l[0]);
      |s| == 10 &&
      s[0] == Source(l[0], PropertiesFormat) &&
      (forall j :: 1 <= j < 4 ==>
        s[3 * j - 2] == Source(l[j], PropertiesFormat) &&
        s[3 * j - 1] == Source(ReplaceAll(l[j], ".properties", ".json"), JsonFormat) &&
        s[3 * j] == Source(ReplaceAll(l[j], ".properties", ".yaml"), YamlFormat))
  {
    ExpandAllFour(l);
    ExpandedSiblings(l[1], l[0]);
    ExpandedSiblings(l[2], l[0]);
    ExpandedSiblings(l[3], l[0]);
    var s := ExpandAll(l, l[0]);
    ConcatFour([Source(l[0], PropertiesFormat)], Expand(l[1], l[0]), Expand(l[2], l[0]), Expand(l[3], l[0]));
    assert s[1] == s[1..4][0] && s[2] == s[1..4][1] && s[3] == s[1..4][2];
    assert s[4] == s[4..7][0] && s[5] == s[4..7][1] && s[6] == s[4..7][2];
    assert s[7] == s[7..10][0] && s[8] == s[7..10][1] && s[9] == s[7..10][2];
    forall j | 1 <= j < 4
      ensures s[3 * j - 2] == Source(l[j], PropertiesFormat)
      ensures s[3 * j - 1] == Source(ReplaceAll(l[j], ".properties", ".json"), JsonFormat)
      ensures s[3 * j] == Source(ReplaceAll(l[j], ".properties", ".yaml"), YamlFormat)
    {
      if j == 1 {
      } else if j == 2 {
      } else {
        assert j == 3;
      }
    }
  }

  /** A `.properties` location other than the first expands to itself and its two siblings. */
  lemma ExpandedSiblings(location: string, first: string)
    requires location != first && EndsWith(location, ".properties")
    ensures Expand(location, first) ==
      [Source(location, PropertiesFormat),
       Source(ReplaceAll(location, ".properties", ".json"), JsonFormat),
       Source(ReplaceAll(location, ".properties", ".yaml"), YamlFormat)]
  {
  }

  lemma ConcatFour<T>(a: seq<T>, b: seq<T>, c: seq<T>, d: seq<T>)
    requires |a| == 1 && |b| == 3 && |c| == 3 && |d| == 3
    ensures var s := a + b + c + d;
      |s| == 10 && s[0] == a[0] && s[1..4] == b && s[4..7] == c && s[7..10] == d
  {
  }

  /** Four locations expand one after the other. */
  lemma ExpandAllFour(l: seq<string>)
    requires |l| == 4
    ensures ExpandAll(l, l[0]) ==
      [Source(l[0], PropertiesFormat)] + Expand(l[1], l[0]) + Expand(l[2], l[0]) + Expand(l[3], l[0])
  {
    assert l[..1] == [l[0]] && l[..2] == l[..1] + [l[1]] && l[..3] == l[..2] + [l[2]];
    var e0 := [Source(l[0], PropertiesFormat)];
    assert ExpandAll(l[..1], l[0]) == e0;
    assert ExpandAll(l[..2], l[0]) == e0 + Expand(l[1], l[0]);
    assert ExpandAll(l[..3], l[0]) == e0 + Expand(l[1], l[0]) + Expand(l[2], l[0]);
    assert l[..4] == l;
  }

  /** Every base location after the first is a `.properties` location different from the first. */
  lemma LaterLocationsExpand(home: string, sep: char)
    requires UserHome(home, sep) != ClasspathPrefix + "com/stormpath/sdk/config/"
    ensures var l := BaseLocations(home, sep);
      forall j :: 1 <= j < 4 ==> l[j] != l[0] && EndsWith(l[j], ".properties")
  {
    var l := BaseLocations(home, sep);
    EndsWithProperties(ClasspathPrefix);
    EndsWithProperties(UserHome(home, sep) + ".stormpath" + [sep]);
    EndsWithProperties(UserHome(home, sep));
    assert l[2][|l[2]| - 31] == '.' && l[0][|l[0]| - 31] == 's';
    assert l[2] != l[0];
    assert l[1] != l[0];
    assert l[3][..|l[3]| - 20] == UserHome(home, sep);
    assert l[0][..|l[0]| - 20] == ClasspathPrefix + "com/stormpath/sdk/config/";
    assert l[3] != l[0];
  }

  /** In a name whose stem cannot start the pattern, only the trailing pattern is replaced. */
  lemma ReplaceTrailing(stem: string, pat: string, ext: string)
    requires |pat| > 0 && pat[0] !in stem
    ensures ReplaceAll(stem + pat, pat, ext) == stem + ext
  {
    forall i | 0 <= i < |stem|
      ensures !OccursAt(stem + pat, i, pat)
    {
      assert (stem + pat)[i] == stem[i];
      assert (stem + pat)[i..i + |pat|][0] != pat[0];
    }
    ReplaceAllKeepsPrefix(stem, pat, pat, ext);
    assert pat[..|pat|] == pat && pat[|pat|..] == [];
    assert ReplaceAll(pat, pat, ext) == ext + ReplaceAll([], pat, ext);
  }

  /** The sibling of `prefix + "stormpath.properties"` is `prefix + "stormpath" + ext`. */
  lemma SiblingName(prefix: string, ext: string)
    requires NoneBefore(prefix + PropertiesFile, |prefix|, ".properties")
    ensures ReplaceAll(prefix + PropertiesFile, ".properties", ext) == prefix + FileStem + ext
  {
    ReplaceAllKeepsPrefix(prefix, PropertiesFile, ".properties", ext);
    assert '.' !in FileStem;
    ReplaceTrailing(FileStem, ".properties", ext);
  }

  /**
   * Under a home directory that does not itself contain ".properties", no occurrence of
   * ".properties" starts before the file name of a location in that directory.
   */
  lemma {:induction false} HomeNoneBefore(home: string, sep: char, dir: string)
    requires sep !in ".properties" && !Contains(home, ".properties")
    requires forall i :: 0 <= i < |dir| ==> dir[i] != '.' || (i + 1 < |dir| && dir[i + 1] != 'p')
    ensures NoneBefore(UserHome(home, sep) + dir + PropertiesFile, |home| + 1 + |dir|, ".properties")
  {
    var pat := ".properties";
    var t := UserHome(home, sep) + dir + PropertiesFile;
    forall i | 0 <= i < |home| + 1 + |dir|
      ensures !OccursAt(t, i, pat)
    {
      if i + |pat| <= |home| {
        assert t[i..i + |pat|] == home[i..i + |pat|];
        assert !OccursAt(home, i, pat);
      } else if i <= |home| {
        assert t[|home|] == sep;
        assert sep != pat[|home| - i];
        assert t[i..i + |pat|][|home| - i] != pat[|home| - i];
      } else {
        var j := i - |home| - 1;
        assert t[i] == dir[j];
        if j + 1 < |dir| {
          assert t[i + 1] == dir[j + 1];
        } else {
          assert t[i + 1] == PropertiesFile[0] == 's';
        }
        assert t[i] != '.' || t[i + 1] != 'p';
      }
    }
  }

  /**
   * With a home directory free of ".properties" and a separator that is not one of its
   * characters, the ten sources are exactly those of the class comment, in that order:
   * `classpath:com/stormpath/sdk/config/stormpath.properties`, then
   * `stormpath.properties`, `stormpath.json`, `stormpath.yaml` on the classpath, in
   * `~/.stormpath/` and in `~/`.
   */
  lemma DefaultSourceNames(home: string, sep: char)
    requires sep !in ".properties" && !Contains(home, ".properties")
    requires UserHome(home, sep) != ClasspathPrefix + "com/stormpath/sdk/config/"
    ensures var s := ExpandAll(BaseLocations(home, sep), BundledLocation);
      var cp := ClasspathPrefix + FileStem;
      var h := UserHome(home, sep);
      var hidden := h + ".stormpath" + [sep];
      |s| == 10 &&
      s[0] == Source(BundledLocation, PropertiesFormat) &&
      s[1] == Source(ClasspathPrefix + PropertiesFile, PropertiesFormat) &&
      s[2] == Source(cp + ".json", JsonFormat) &&
      s[3] == Source(cp + ".yaml", YamlFormat) &&
      s[4] == Source(hidden + PropertiesFile, PropertiesFormat) &&
      s[5] == Source(hidden + FileStem + ".json", JsonFormat) &&
      s[6] == Source(hidden + FileStem + ".yaml", YamlFormat) &&
      s[7] == Source(h + PropertiesFile, PropertiesFormat) &&
      s[8] == Source(h + FileStem + ".json", JsonFormat) &&
      s[9] == Source(h + FileStem + ".yaml", YamlFormat)
  {
    var l := BaseLocations(home, sep);
    var s := ExpandAll(l, BundledLocation);
    DefaultSourceOrder(home, sep);
    assert s[2] == Source(ReplaceAll(l[1], ".properties", ".json"), JsonFormat);
    assert s[3] == Source(ReplaceAll(l[1], ".properties", ".yaml"), YamlFormat);
    assert s[5] == Source(ReplaceAll(l[2], ".properties", ".json"), JsonFormat);
    assert s[6] == Source(ReplaceAll(l[2], ".properties", ".yaml"), YamlFormat);
    assert s[8] == Source(ReplaceAll(l[3], ".properties", ".json"), JsonFormat);
    assert s[9] == Source(ReplaceAll(l[3], ".properties", ".yaml"), YamlFormat);
    ClasspathSiblings();
    HomeSiblings(home, sep);
  }

  lemma ClasspathSiblings()
    ensures ReplaceAll(ClasspathPrefix + PropertiesFile, ".properties", ".json") == ClasspathPrefix + FileStem + ".json"
    ensures ReplaceAll(ClasspathPrefix + PropertiesFile, ".properties", ".yaml") == ClasspathPrefix + FileStem + ".yaml"
  {
    assert ClasspathPrefix + PropertiesFile == (ClasspathPrefix + FileStem) + ".properties";
    assert '.' !in ClasspathPrefix + FileStem;
    ReplaceTrailing(ClasspathPrefix + FileStem, ".properties", ".json");
    ReplaceTrailing(ClasspathPrefix + FileStem, ".properties", ".yaml");
  }

  lemma HomeSiblings(home: string, sep: char)
    requires sep !in ".properties" && !Contains(home, ".properties")
    ensures var h := UserHome(home, sep);
      var hidden := h + ".stormpath" + [sep];
      ReplaceAll(hidden + PropertiesFile, ".properties", ".json") == hidden + FileStem + ".json" &&
      ReplaceAll(hidden + PropertiesFile, ".properties", ".yaml") == hidden + FileStem + ".yaml" &&
      ReplaceAll(h + PropertiesFile, ".properties", ".json") == h + FileStem + ".json" &&
      ReplaceAll(h + PropertiesFile, ".properties", ".yaml") == h + FileStem + ".yaml"
  {
    var h := UserHome(home, sep);
    var dir := ".stormpath" + [sep];
    assert h + ".stormpath" + [sep] == h + dir;
    HomeNoneBefore(home, sep, dir);
    assert h + dir + PropertiesFile == (h + dir) + PropertiesFile;
    SiblingName(h + dir, ".json");
    SiblingName(h + dir, ".yaml");
    HomeNoneBefore(home, sep, []);
    assert h + [] == h;
    SiblingName(h, ".json");
    SiblingName(h, ".yaml");
  }

  /** Folds the sources' mappings in order, later ones overriding earlier ones (`putAll`). */
  function Merge(maps: seq<PropertyMap>): (m: PropertyMap)
    ensures maps == [] ==> m == map[]
    ensures maps != [] ==> forall k :: k in maps[|maps| - 1] ==> k in m && m[k] == maps[|maps| - 1][k]
    ensures forall i, k :: 0 <= i < |maps| && k in maps[i] ==> k in m
  {
    if maps == [] then map[]
    else Merge(maps[..|maps| - 1]) + maps[|maps| - 1]
  }

  /** The mapping each source produces, in source order. */
  function ReadAll(sources: seq<Source>, read: Source -> PropertyMap): (maps: seq<PropertyMap>)
    ensures |maps| == |sources|
    ensures forall i :: 0 <= i < |sources| ==> maps[i] == read(sources[i])
  {
    seq(|sources|, i requires 0 <= i < |sources| => read(sources[i]))
  }

  /** Reads every source and merges the results, as the builder's constructor does. */
  method MergeSources(sources: seq<Source>, read: Source -> PropertyMap) returns (props: PropertyMap)
    ensures props == Merge(ReadAll(sources, read))
  {
    props := map[];
    for i := 0 to |sources|
      invariant props == Merge(ReadAll(sources[..i], read))
    {
      var srcProps := read(sources[i]);
      props := props + srcProps;
      assert ReadAll(sources[..i + 1], read)[..i] == ReadAll(sources[..i], read);
    }
    assert sources[..|sources|] == sources;
  }

  /** A key is in the merged mapping exactly when some source defines it. */
  lemma {:induction false} MergeDomain(maps: seq<PropertyMap>, k: string)
    ensures k in Merge(maps) <==> exists i :: 0 <= i < |maps| && k in maps[i]
  {
    if maps != [] {
      var init := maps[..|maps| - 1];
      MergeDomain(init, k);
      if k in Merge(init) {
        var i :| 0 <= i < |init| && k in init[i];
        assert k in maps[i];
      }
      forall i | 0 <= i < |maps| - 1 && k in maps[i]
        ensures k in Merge(init)
      {
        assert k in init[i];
      }
    }
  }

  /** The merged value of a key is the one from the last source that defines it. */
  lemma {:induction false} MergeLastWins(maps: seq<PropertyMap>, i: int, k: string)
    requires 0 <= i < |maps| && k in maps[i]
    requires forall j :: i < j < |maps| ==> k !in maps[j]
    ensures k in Merge(maps) && Merge(maps)[k] == maps[i][k]
  {
    if i < |maps| - 1 {
      var init := maps[..|maps| - 1];
      assert k in init[i];
      MergeLastWins(init, i, k);
    }
  }

  /** Merging distributes over concatenation of the source list. */
  lemma {:induction false} MergeAppend(a: seq<PropertyMap>, b: seq<PropertyMap>)
    ensures Merge(a + b) == Merge(a) + Merge(b)
  {
    if b == [] {
      assert a + b == a;
    } else {
      var b' := b[..|b| - 1];
      assert (a + b)[..|a + b| - 1] == a + b';
      MergeAppend(a, b');
    }
  }

  /** A source that contributes no keys (missing or unreadable) changes nothing, wherever it sits. */
  lemma EmptySourceIsNoOp(a: seq<PropertyMap>, b: seq<PropertyMap>)
    ensures Merge(a + [map[]] + b) == Merge(a + b)
  {
    MergeAppend(a + [map[]], b);
    MergeAppend(a, [map[]]);
    var none: PropertyMap := map[];
    assert Merge([none]) == none by {
      assert [none][..0] == [];
    }
    assert Merge(a) + none == Merge(a);
    MergeAppend(a, b);
  }
}
