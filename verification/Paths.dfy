/** The strings behind the names of Storage, and when two transfers can get in each other's way. */
module Paths {
  import opened Wire
  import opened Storage
  import opened Transfer

  datatype Dirs = Dirs(outputDir: string, partsDir: string)

  /** The decimal digits of a number, as `format!` prints them. */
  function Decimal(n: nat): (s: string)
    ensures |s| > 0
    ensures forall c :: c in s ==> '0' <= c <= '9'
  {
    var digit := '0' + (n % 10) as char;
    if n < 10 then [digit] else Decimal(n / 10) + [digit]
  }

  lemma {:induction false} DecimalInjective(a: nat, b: nat)
    requires Decimal(a) == Decimal(b)
    ensures a == b
  {
    var s, t := Decimal(a), Decimal(b);
    assert s[|s| - 1] == '0' + (a % 10) as char;
    assert t[|t| - 1] == '0' + (b % 10) as char;
    assert a % 10 == b % 10;
    if a >= 10 && b >= 10 {
      assert Decimal(a / 10) == s[..|s| - 1] == Decimal(b / 10);
      DecimalInjective(a / 10, b / 10);
    }
  }

  /** What a temporary file's name adds to the file name. */
  function Suffix(n: Name): (s: string)
    requires !n.OutFile?
  {
    match n
    case Part(i) => ".part" + Decimal(i)
    case MetaFile => ".bee-meta"
    case TmpFile => ".bee-meta.tmp"
  }

  function Path(dirs: Dirs, file: string, n: Name): string
  {
    if n.OutFile? then dirs.outputDir + "/" + file
    else dirs.partsDir + "/" + file + Suffix(n)
  }

  predicate Bare(file: string)
  {
    '/' !in file
  }

  /** A string splits at its last separator in one way only. */
  lemma LastSeparator(a: string, x: string, b: string, y: string, c: char)
    requires c !in x && c !in y && a + [c] + x == b + [c] + y
    ensures a == b && x == y
  {
    var s := a + [c] + x;
    assert forall i :: |a| < i < |s| ==> s[i] == x[i - |a| - 1];
    assert forall i :: |b| < i < |s| ==> s[i] == y[i - |b| - 1];
    assert s[|a|] == c && s[|b|] == c;
    assert a == s[..|a|] && b == s[..|b|];
    assert x == s[|a| + 1..] && y == s[|b| + 1..];
  }

  /** The part of a temporary file's suffix before and after its last dot. */
  function Stem(n: Name): string
    requires !n.OutFile?
  {
    if n.TmpFile? then ".bee-meta" else ""
  }

  function Extension(n: Name): string
    requires !n.OutFile?
  {
    match n
    case Part(i) => "part" + Decimal(i)
    case MetaFile => "bee-meta"
    case TmpFile => "tmp"
  }

  lemma SuffixSplits(n: Name)
    requires !n.OutFile?
    ensures Suffix(n) == Stem(n) + ['.'] + Extension(n)
    ensures '.' !in Extension(n) && '/' !in Suffix(n)
  {
    hide Decimal;
    if n.Part? {
      assert Suffix(n) == "" + ['.'] + ("part" + Decimal(n.index));
    }
  }

  lemma ExtensionInjective(n: Name, m: Name)
    requires !n.OutFile? && !m.OutFile? && Extension(n) == Extension(m)
    ensures n == m
  {
    var e := Extension(n);
    if n.Part? && m.Part? {
      assert e[4..] == Decimal(n.index) && e[4..] == Decimal(m.index);
      DecimalInjective(n.index, m.index);
    } else {
      Initial(n);
      Initial(m);
    }
  }

  lemma Initial(n: Name)
    requires !n.OutFile?
    ensures var e := Extension(n);
            |e| > 0 && e[0] == match n case Part(_) => 'p' case MetaFile => 'b' case TmpFile => 't'
  {
  }

  lemma SuffixInjective(f: string, n: Name, g: string, m: Name)
    requires !n.OutFile? && !m.OutFile? && f + Suffix(n) == g + Suffix(m)
    ensures f == g && n == m
  {
    hide Suffix, Stem, Extension;
    SuffixSplits(n);
    SuffixSplits(m);
    assert f + Suffix(n) == f + Stem(n) + ['.'] + Extension(n);
    assert g + Suffix(m) == g + Stem(m) + ['.'] + Extension(m);
    LastSeparator(f + Stem(n), Extension(n), g + Stem(m), Extension(m), '.');
    ExtensionInjective(n, m);
    assert f == (f + Stem(n))[..|f + Stem(n)| - |Stem(n)|];
    assert g == (g + Stem(m))[..|g + Stem(m)| - |Stem(m)|];
  }

  function Directory(dirs: Dirs, n: Name): string
  {
    if n.OutFile? then dirs.outputDir else dirs.partsDir
  }

  function BaseName(file: string, n: Name): string
  {
    if n.OutFile? then file else file + Suffix(n)
  }

  /** Two paths of two transfers are the same string in exactly these cases: they are the same
      path of the same transfer, or temporary files share the directory of the results and one
      file name is the name of a temporary file of the other. */
  lemma PathsClash(dirs: Dirs, f: string, n: Name, g: string, m: Name)
    requires Bare(f) && Bare(g)
    ensures Path(dirs, f, n) == Path(dirs, g, m)
       <==> || (f == g && n == m)
            || (dirs.outputDir == dirs.partsDir && n.OutFile? && !m.OutFile? && f == g + Suffix(m))
            || (dirs.outputDir == dirs.partsDir && !n.OutFile? && m.OutFile? && g == f + Suffix(n))
  {
    hide Suffix, Stem, Extension;
    assert Path(dirs, f, n) == Directory(dirs, n) + ['/'] + BaseName(f, n);
    assert Path(dirs, g, m) == Directory(dirs, m) + ['/'] + BaseName(g, m);
    if !n.OutFile? { SuffixSplits(n); }
    if !m.OutFile? { SuffixSplits(m); }
    if Path(dirs, f, n) == Path(dirs, g, m) {
      LastSeparator(Directory(dirs, n), BaseName(f, n), Directory(dirs, m), BaseName(g, m), '/');
      if !n.OutFile? && !m.OutFile? {
        SuffixInjective(f, n, g, m);
      }
    }
  }

  // ----- Transfers side by side on one real file system --------------------------------------

  type RealFiles = map<string, Bytes>

  /** `view` is what a transfer of `file` sees of the real file system. */
  ghost predicate Sees(world: RealFiles, dirs: Dirs, file: string, view: Files)
  {
    forall n: Name ::
      && (n in view <==> Path(dirs, file, n) in world)
      && (n in view ==> view[n] == world[Path(dirs, file, n)])
  }

  /** No other path than those of `file` differs. */
  ghost predicate OnlyOwnPaths(world: RealFiles, world': RealFiles, dirs: Dirs, file: string)
  {
    forall p: string ::
      (forall n: Name :: p != Path(dirs, file, n)) ==>
        (p in world <==> p in world') && (p in world ==> world[p] == world'[p])
  }

  /** No result file of one transfer is named like a temporary file of the other in one directory. */
  ghost predicate Separate(dirs: Dirs, f: string, g: string)
  {
    || dirs.outputDir != dirs.partsDir
    || forall n: Name :: !n.OutFile? ==> f != g + Suffix(n) && g != f + Suffix(n)
  }

  /** Whatever a transfer does with its own paths, a transfer of another file does not notice:
      all that is proved of one transfer on its own view holds with the others running. */
  lemma ForeignStep(world: RealFiles, world': RealFiles, dirs: Dirs, f: string, g: string, view: Files)
    requires Bare(f) && Bare(g) && f != g && Separate(dirs, f, g)
    requires OnlyOwnPaths(world, world', dirs, f)
    requires Sees(world, dirs, g, view)
    ensures Sees(world', dirs, g, view)
  {
    hide Path;
    forall m: Name
      ensures && (m in view <==> Path(dirs, g, m) in world')
              && (m in view ==> view[m] == world'[Path(dirs, g, m)])
    {
      var p := Path(dirs, g, m);
      forall n: Name
        ensures p != Path(dirs, f, n)
      {
        PathsClash(dirs, f, n, g, m);
      }
    }
  }

  /** Writing or removing the path of one name is seen as a change of that name alone: the structured
      names lose nothing. */
  lemma OwnChange(world: RealFiles, dirs: Dirs, f: string, view: Files, n: Name, data: Bytes)
    requires Bare(f) && Sees(world, dirs, f, view)
    ensures Sees(world[Path(dirs, f, n) := data], dirs, f, view[n := data])
    ensures Sees(world - {Path(dirs, f, n)}, dirs, f, view - {n})
    ensures OnlyOwnPaths(world, world[Path(dirs, f, n) := data], dirs, f)
    ensures OnlyOwnPaths(world, world - {Path(dirs, f, n)}, dirs, f)
  {
    hide Path;
    forall m: Name
      ensures Path(dirs, f, m) == Path(dirs, f, n) <==> m == n
    {
      PathsClash(dirs, f, n, f, m);
    }
  }

  /** `Storage.ExecStep` on the common file system, on the strings that the code opens. */
  ghost predicate RealStep(world: RealFiles, dirs: Dirs, f: string, e: Exec, world': RealFiles, e': Exec)
  {
    && e.todo != []
    && var rest := e.(todo := e.todo[1..]);
       match e.todo[0]
       case Write(n, d) =>
         var p := Path(dirs, f, n);
         || (world' == world[p := d] && e' == rest)
         || (p in world' && world'[p] <= d && world' == world[p := world'[p]] && (e' == e || e' == FAILED))
         || (world' == world && e' == FAILED)
       case Copy(src, off) =>
         var p, out := Path(dirs, f, src), Path(dirs, f, OutFile);
         if p !in world then world' == world && e' == FAILED
         else if off >= |world[p]| then world' == world && (e' == rest || e' == FAILED)
         else
           && out in world && out in world' && world' == world[out := world'[out]]
           && var m := |world'[out]| - |world[out]|;
              && 0 <= m <= |world[p]| - off && world'[out] == world[out] + world[p][off..off + m]
              && (e' == FAILED || (0 < m <= BUFFER && e' == e.(todo := [Copy(src, off + m)] + e.todo[1..])))
       case Remove(n) => (world' == world - {Path(dirs, f, n)} || world' == world) && e' == rest
       case MustRemove(n) =>
         var p := Path(dirs, f, n);
         || (p in world && world' == world - {p} && e' == rest)
         || (world' == world && e' == FAILED)
       case Rename(a, b) =>
         var p, q := Path(dirs, f, a), Path(dirs, f, b);
         || (p in world && world' == (world - {p})[q := world[p]] && e' == rest)
         || (world' == world && e' == Exec([Remove(a)], false))
  }

  /** The change of the view that goes with a step. */
  ghost function SeenStep(world: RealFiles, dirs: Dirs, f: string, e: Exec, world': RealFiles, view: Files): Files
    requires e.todo != []
  {
    if world' == world then view
    else
      match e.todo[0]
      case Write(n, d) =>
        var p := Path(dirs, f, n);
        if p in world' then view[n := world'[p]] else view
      case Copy(src, off) =>
        var out := Path(dirs, f, OutFile);
        if out in world' then view[OutFile := world'[out]] else view
      case Remove(n) => view - {n}
      case MustRemove(n) => view - {n}
      case Rename(a, b) => if a in view then (view - {a})[b := view[a]] else view
  }

  /** Every step on the common file system, complete, partial or failed, is the step of the private view
      and touches no other path. */
  lemma OwnStep(world: RealFiles, dirs: Dirs, f: string, view: Files, e: Exec, world': RealFiles, e': Exec)
    requires Bare(f) && Sees(world, dirs, f, view) && RealStep(world, dirs, f, e, world', e')
    ensures var view' := SeenStep(world, dirs, f, e, world', view);
            ExecStep(view, e, view', e') && Sees(world', dirs, f, view') && OnlyOwnPaths(world, world', dirs, f)
  {
    var op := e.todo[0];
    hide RealStep, SeenStep, ExecStep, Sees, OnlyOwnPaths;
    if world' == world {
      Unmoved(world, dirs, f, view, e, e');
      StaysSeen(world, dirs, f, view, e);
    } else if op.Write? {
      WriteMoves(world, dirs, f, view, e, world', e');
    } else if op.Copy? {
      CopyMoves(world, dirs, f, view, e, world', e');
    } else if op.Rename? {
      RenameMoves(world, dirs, f, view, e, world', e');
    } else {
      RemoveMoves(world, dirs, f, view, e, world', e');
    }
  }

  lemma StaysSeen(world: RealFiles, dirs: Dirs, f: string, view: Files, e: Exec)
    requires e.todo != []
    ensures SeenStep(world, dirs, f, e, world, view) == view
  {
  }

  lemma WriteMoves(world: RealFiles, dirs: Dirs, f: string, view: Files, e: Exec, world': RealFiles, e': Exec)
    requires Bare(f) && Sees(world, dirs, f, view) && RealStep(world, dirs, f, e, world', e') && world' != world
    requires e.todo[0].Write?
    ensures var view' := SeenStep(world, dirs, f, e, world', view);
            ExecStep(view, e, view', e') && Sees(world', dirs, f, view') && OnlyOwnPaths(world, world', dirs, f)
  {
    hide Path, OnlyOwnPaths;
    var n := e.todo[0].name;
    OwnChange(world, dirs, f, view, n, world'[Path(dirs, f, n)]);
  }

  lemma CopyMoves(world: RealFiles, dirs: Dirs, f: string, view: Files, e: Exec, world': RealFiles, e': Exec)
    requires Bare(f) && Sees(world, dirs, f, view) && RealStep(world, dirs, f, e, world', e') && world' != world
    requires e.todo[0].Copy?
    ensures var view' := SeenStep(world, dirs, f, e, world', view);
            ExecStep(view, e, view', e') && Sees(world', dirs, f, view') && OnlyOwnPaths(world, world', dirs, f)
  {
    hide Path, OnlyOwnPaths;
    OwnChange(world, dirs, f, view, OutFile, world'[Path(dirs, f, OutFile)]);
  }

  lemma RemoveMoves(world: RealFiles, dirs: Dirs, f: string, view: Files, e: Exec, world': RealFiles, e': Exec)
    requires Bare(f) && Sees(world, dirs, f, view) && RealStep(world, dirs, f, e, world', e') && world' != world
    requires e.todo[0].Remove? || e.todo[0].MustRemove?
    ensures var view' := SeenStep(world, dirs, f, e, world', view);
            ExecStep(view, e, view', e') && Sees(world', dirs, f, view') && OnlyOwnPaths(world, world', dirs, f)
  {
    hide Path, OnlyOwnPaths;
    OwnChange(world, dirs, f, view, e.todo[0].name, []);
  }

  lemma RenameMoves(world: RealFiles, dirs: Dirs, f: string, view: Files, e: Exec, world': RealFiles, e': Exec)
    requires Bare(f) && Sees(world, dirs, f, view) && RealStep(world, dirs, f, e, world', e') && world' != world
    requires e.todo[0].Rename?
    ensures var view' := SeenStep(world, dirs, f, e, world', view);
            ExecStep(view, e, view', e') && Sees(world', dirs, f, view') && OnlyOwnPaths(world, world', dirs, f)
  {
    hide Path, OnlyOwnPaths;
    var a, b := e.todo[0].src, e.todo[0].dst;
    var mid := world - {Path(dirs, f, a)};
    OwnChange(world, dirs, f, view, a, []);
    OwnChange(mid, dirs, f, view - {a}, b, world[Path(dirs, f, a)]);
    OwnTwice(world, mid, world', dirs, f);
  }

  lemma OwnTwice(world: RealFiles, mid: RealFiles, world': RealFiles, dirs: Dirs, f: string)
    requires OnlyOwnPaths(world, mid, dirs, f) && OnlyOwnPaths(mid, world', dirs, f)
    ensures OnlyOwnPaths(world, world', dirs, f)
  {
    hide Path;
  }

  lemma Unmoved(world: RealFiles, dirs: Dirs, f: string, view: Files, e: Exec, e': Exec)
    requires Bare(f) && Sees(world, dirs, f, view) && RealStep(world, dirs, f, e, world, e')
    ensures ExecStep(view, e, view, e') && OnlyOwnPaths(world, world, dirs, f)
  {
    hide Path;
    match e.todo[0]
    case Write(n, d) => assert n in view ==> view == view[n := view[n]];
    case Copy(src, off) => assert OutFile in view ==> view == view[OutFile := view[OutFile]];
    case Remove(n) => assert n !in view ==> view == view - {n};
    case MustRemove(n) => assert n !in view ==> view == view - {n};
    case Rename(a, b) =>
      PathsClash(dirs, f, a, f, b);
      assert a in view && a == b ==> view == (view - {a})[b := view[a]];
  }

  // ----- Two transfers at the same time -----------------------------------------------------------------

  /** The common file system and two transfers, each with its own view of it. */
  datatype Both = Both(world: RealFiles, a: State, b: State)

  ghost predicate Views(dirs: Dirs, f: string, g: string, s: Both)
  {
    Sees(s.world, dirs, f, s.a.disk) && Sees(s.world, dirs, g, s.b.disk)
  }

  /** One of the two makes a step, which changes no paths but its own. */
  ghost predicate BothNext(ea: Env, eb: Env, dirs: Dirs, f: string, g: string, s: Both, s': Both)
  {
    && Views(dirs, f, g, s')
    && (|| (Next(ea, s.a, s'.a) && s'.b == s.b.(disk := s'.b.disk) && OnlyOwnPaths(s.world, s'.world, dirs, f))
        || (Next(eb, s.b, s'.b) && s'.a == s.a.(disk := s'.a.disk) && OnlyOwnPaths(s.world, s'.world, dirs, g)))
  }

  ghost predicate BothRun(ea: Env, eb: Env, dirs: Dirs, f: string, g: string, run: seq<Both>)
  {
    && run != [] && Views(dirs, f, g, run[0]) && Init(run[0].a) && Init(run[0].b)
    && forall t :: 0 <= t < |run| - 1 ==> BothNext(ea, eb, dirs, f, g, run[t], run[t + 1])
  }

  /** A view is determined by the file system. */
  lemma SameView(world: RealFiles, dirs: Dirs, f: string, v: Files, w: Files)
    requires Sees(world, dirs, f, v) && Sees(world, dirs, f, w)
    ensures v == w
  {
    hide Path;
    assert forall n: Name :: n in v <==> n in w;
  }

  ghost predicate ReachedBy(env: Env, s: State)
  {
    exists run :: Run(env, run) && run[|run| - 1] == s
  }

  lemma ReachedNext(env: Env, s: State, s': State)
    requires ReachedBy(env, s) && Next(env, s, s')
    ensures ReachedBy(env, s')
  {
    hide Next;
    var run :| Run(env, run) && run[|run| - 1] == s;
    var longer := run + [s'];
    forall t | 0 <= t < |longer| - 1
      ensures Next(env, longer[t], longer[t + 1])
    {
      if t < |run| - 1 {
        assert Next(env, run[t], run[t + 1]);
      }
    }
    assert Run(env, longer) && longer[|longer| - 1] == s';
  }

  /** Two transfers of different files do not disturb each other: in every run of both together, each
      is in a state that it reaches in a run of its own, so that everything proved of the runs of one
      transfer holds of each. */
  lemma {:induction false} SideBySide(ea: Env, eb: Env, dirs: Dirs, f: string, g: string, run: seq<Both>, t: nat)
    requires Bare(f) && Bare(g) && f != g && Separate(dirs, f, g)
    requires BothRun(ea, eb, dirs, f, g, run) && t < |run|
    ensures ReachedBy(ea, run[t].a) && ReachedBy(eb, run[t].b) && Views(dirs, f, g, run[t])
  {
    assert Separate(dirs, g, f);
    hide Next, Sees, OnlyOwnPaths, Separate;
    if t == 0 {
      assert Run(ea, [run[0].a]) && Run(eb, [run[0].b]);
      assert [run[0].a][|[run[0].a]| - 1] == run[0].a && [run[0].b][|[run[0].b]| - 1] == run[0].b;
    } else {
      SideBySide(ea, eb, dirs, f, g, run, t - 1);
      var s, s' := run[t - 1], run[t];
      assert BothNext(ea, eb, dirs, f, g, run[t - 1], run[t - 1 + 1]);
      if Next(ea, s.a, s'.a) && s'.b == s.b.(disk := s'.b.disk) && OnlyOwnPaths(s.world, s'.world, dirs, f) {
        ForeignStep(s.world, s'.world, dirs, f, g, s.b.disk);
        SameView(s'.world, dirs, g, s.b.disk, s'.b.disk);
        ReachedNext(ea, s.a, s'.a);
      } else {
        ForeignStep(s.world, s'.world, dirs, g, f, s.a.disk);
        SameView(s'.world, dirs, f, s.a.disk, s'.a.disk);
        ReachedNext(eb, s.b, s'.b);
      }
    }
  }
}
