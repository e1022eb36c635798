/**
 * The merge policy that folds an imported fragment into the root settings:
 * list fields are appended in order without deduplication, map fields are
 * unioned with the fragment winning on a key collision, and the identity
 * fields (`dotfilesDir`, `gpgUserId`) are never touched.
 */
module MergeEngine {
  import opened Paths
  import opened SettingsModel

  /** `r` is `front` followed by `back`. */
  ghost predicate Appended<T>(r: seq<T>, front: seq<T>, back: seq<T>) {
    |r| == |front| + |back| && r[..|front|] == front && r[|front|..] == back
  }

  /** `r` is `base` overridden by `top`: every key of either, `top`'s value where it has one. */
  ghost predicate Overrides<K, V>(r: map<K, V>, base: map<K, V>, top: map<K, V>) {
    && r.Keys == base.Keys + top.Keys
    && (forall k :: k in top ==> r[k] == top[k])
    && (forall k :: k in base && k !in top ==> r[k] == base[k])
  }

  /** The value of `Settings::merge`: the root settings after folding in fragment `f`. */
  function Merge<Dot, DotOverride>(s: SettingsValue<Dot, DotOverride>, f: ImportedSettings<Dot, DotOverride>)
    : SettingsValue<Dot, DotOverride>
  {
    s.(settings := ActiveProfile(
         s.settings.dots + f.settings.dots,
         s.settings.prehooks + f.settings.prehooks,
         s.settings.posthooks + f.settings.posthooks,
         s.settings.vars + f.settings.vars),
       profiles := s.profiles + f.profiles,
       imports := s.imports + f.imports)
  }

  /**
   * The merge policy: identity fields kept, every list the old one followed
   * by the fragment's, every map the old one overridden by the fragment's.
   */
  lemma MergePolicy<Dot, DotOverride>(s: SettingsValue<Dot, DotOverride>, f: ImportedSettings<Dot, DotOverride>)
    ensures var r := Merge(s, f);
      && r.dotfilesDir == s.dotfilesDir && r.gpgUserId == s.gpgUserId
      && Appended(r.settings.prehooks, s.settings.prehooks, f.settings.prehooks)
      && Appended(r.settings.posthooks, s.settings.posthooks, f.settings.posthooks)
      && Appended(r.settings.vars, s.settings.vars, f.settings.vars)
      && Appended(r.imports, s.imports, f.imports)
      && Overrides(r.settings.dots, s.settings.dots, f.settings.dots)
      && Overrides(r.profiles, s.profiles, f.profiles)
  {
  }

  /** Merging the same fragment twice doubles its list contributions but adds no map key. */
  lemma MergeTwice<Dot, DotOverride>(s: SettingsValue<Dot, DotOverride>, f: ImportedSettings<Dot, DotOverride>)
    ensures var once := Merge(s, f); var twice := Merge(once, f);
      && twice.settings.prehooks == s.settings.prehooks + f.settings.prehooks + f.settings.prehooks
      && twice.settings.posthooks == s.settings.posthooks + f.settings.posthooks + f.settings.posthooks
      && twice.settings.vars == s.settings.vars + f.settings.vars + f.settings.vars
      && twice.imports == s.imports + f.imports + f.imports
      && twice.settings.dots == once.settings.dots
      && twice.profiles == once.profiles
  {
  }

  /** Merge is not commutative: on a colliding key the fragment merged last wins. */
  lemma MergeLastWins<Dot, DotOverride>(s: SettingsValue<Dot, DotOverride>,
                                        a: ImportedSettings<Dot, DotOverride>,
                                        b: ImportedSettings<Dot, DotOverride>, k: string)
    requires k in a.settings.dots && k in b.settings.dots
    ensures Merge(Merge(s, a), b).settings.dots[k] == b.settings.dots[k]
    ensures Merge(Merge(s, b), a).settings.dots[k] == a.settings.dots[k]
  {
  }

  /** The same holds for named profiles. */
  lemma MergeLastWinsProfile<Dot, DotOverride>(s: SettingsValue<Dot, DotOverride>,
                                               a: ImportedSettings<Dot, DotOverride>,
                                               b: ImportedSettings<Dot, DotOverride>, name: string)
    requires name in a.profiles && name in b.profiles
    ensures Merge(Merge(s, a), b).profiles[name] == b.profiles[name]
    ensures Merge(Merge(s, b), a).profiles[name] == a.profiles[name]
  {
  }

  /** A colliding profile is replaced whole: no field of the older profile survives. */
  lemma ProfileReplacedWhole<Dot, DotOverride>(s: SettingsValue<Dot, DotOverride>,
                                               f: ImportedSettings<Dot, DotOverride>, name: string)
    requires name in s.profiles && name in f.profiles
    ensures Merge(s, f).profiles[name] == f.profiles[name]
  {
  }

  // Field selectors, so that the folds below can be stated once for every field.
  function PrehooksOf<Dot, DotOverride>(f: ImportedSettings<Dot, DotOverride>): seq<string> { f.settings.prehooks }
  function PosthooksOf<Dot, DotOverride>(f: ImportedSettings<Dot, DotOverride>): seq<string> { f.settings.posthooks }
  function VarsOf<Dot, DotOverride>(f: ImportedSettings<Dot, DotOverride>): seq<Path> { f.settings.vars }
  function ImportsOf<Dot, DotOverride>(f: ImportedSettings<Dot, DotOverride>): seq<ImportPath> { f.imports }
  function DotsOf<Dot, DotOverride>(f: ImportedSettings<Dot, DotOverride>): map<string, Dot> { f.settings.dots }
  function ProfilesOf<Dot, DotOverride>(f: ImportedSettings<Dot, DotOverride>): map<string, Profile<DotOverride>> { f.profiles }

  /** The concatenation of one list field over fragments, in order. */
  function Concat<F, T>(fs: seq<F>, field: F -> seq<T>): seq<T>
    decreases |fs|
  {
    if fs == [] then [] else Concat(fs[..|fs| - 1], field) + field(fs[|fs| - 1])
  }

  /** `m` overridden by one map field of each fragment in turn. */
  function Overlay<F, K, V>(m: map<K, V>, fs: seq<F>, field: F -> map<K, V>): map<K, V>
    decreases |fs|
  {
    if fs == [] then m else Overlay(m, fs[..|fs| - 1], field) + field(fs[|fs| - 1])
  }

  /** The root settings after merging fragments `fs` in list order. */
  function MergeAll<Dot, DotOverride>(s: SettingsValue<Dot, DotOverride>, fs: seq<ImportedSettings<Dot, DotOverride>>)
    : SettingsValue<Dot, DotOverride>
    decreases |fs|
  {
    if fs == [] then s else Merge(MergeAll(s, fs[..|fs| - 1]), fs[|fs| - 1])
  }

  /** Merging several fragments keeps the identity fields; every list is the old one followed by all fragments' lists in order. */
  lemma {:induction false} MergeAllLists<Dot, DotOverride>(s: SettingsValue<Dot, DotOverride>,
                                                           fs: seq<ImportedSettings<Dot, DotOverride>>)
    ensures var r := MergeAll(s, fs);
      && r.dotfilesDir == s.dotfilesDir && r.gpgUserId == s.gpgUserId
      && r.settings.prehooks == s.settings.prehooks + Concat(fs, PrehooksOf)
      && r.settings.posthooks == s.settings.posthooks + Concat(fs, PosthooksOf)
      && r.settings.vars == s.settings.vars + Concat(fs, VarsOf)
      && r.imports == s.imports + Concat(fs, ImportsOf)
    decreases |fs|
  {
    if fs != [] {
      var init, last := fs[..|fs| - 1], fs[|fs| - 1];
      MergeAllLists(s, init);
      assert s.settings.prehooks + Concat(init, PrehooksOf) + last.settings.prehooks
          == s.settings.prehooks + (Concat(init, PrehooksOf) + PrehooksOf(last));
      assert s.settings.posthooks + Concat(init, PosthooksOf) + last.settings.posthooks
          == s.settings.posthooks + (Concat(init, PosthooksOf) + PosthooksOf(last));
      assert s.settings.vars + Concat(init, VarsOf) + last.settings.vars
          == s.settings.vars + (Concat(init, VarsOf) + VarsOf(last));
      assert s.imports + Concat(init, ImportsOf) + last.imports
          == s.imports + (Concat(init, ImportsOf) + ImportsOf(last));
    }
  }

  /** Merging several fragments: each map is the old one overridden by every fragment's map in order. */
  lemma {:induction false} MergeAllMaps<Dot, DotOverride>(s: SettingsValue<Dot, DotOverride>,
                                                          fs: seq<ImportedSettings<Dot, DotOverride>>)
    ensures var r := MergeAll(s, fs);
      && r.settings.dots == Overlay(s.settings.dots, fs, DotsOf)
      && r.profiles == Overlay(s.profiles, fs, ProfilesOf)
    decreases |fs|
  {
    if fs != [] {
      MergeAllMaps(s, fs[..|fs| - 1]);
    }
  }

  /** On a key, the last fragment that defines it wins. */
  lemma {:induction false} OverlayLastWins<F, K, V>(m: map<K, V>, fs: seq<F>, field: F -> map<K, V>, k: K, j: nat)
    requires j < |fs| && k in field(fs[j])
    requires forall i :: j < i < |fs| ==> k !in field(fs[i])
    ensures k in Overlay(m, fs, field) && Overlay(m, fs, field)[k] == field(fs[j])[k]
    decreases |fs|
  {
    if j < |fs| - 1 {
      OverlayLastWins(m, fs[..|fs| - 1], field, k, j);
    }
  }

  /** A key no fragment defines keeps its old presence and value. */
  lemma {:induction false} OverlayUntouched<F, K, V>(m: map<K, V>, fs: seq<F>, field: F -> map<K, V>, k: K)
    requires forall i :: 0 <= i < |fs| ==> k !in field(fs[i])
    ensures (k in Overlay(m, fs, field)) == (k in m)
    ensures k in m ==> Overlay(m, fs, field)[k] == m[k]
    decreases |fs|
  {
    if fs != [] {
      OverlayUntouched(m, fs[..|fs| - 1], field, k);
    }
  }
}
