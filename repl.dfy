/**
 * The command-line and line-input handling of the standalone interpreter
 * (libraries/glua/lrepl.cpp, after the Lua 5.3 front end).
 *
 * `argv` is the argument vector without its terminating null entry: index
 * `|argv|` stands for that null. A C string read past its end reads the
 * terminating NUL, which `CharAt` returns. Running a chunk is the foreign
 * engine: `RunArgs` asks an oracle whether each chunk succeeds, given the
 * chunks that ran before it.
 */
module Repl {
  import opened Wrappers
  import opened Decimal
  import opened CString

  /** Bits of the mask `CollectArgs` returns. */
  const HasError: bv8 := 1
  const HasI: bv8 := 2
  const HasV: bv8 := 4
  const HasE: bv8 := 8
  const HasCapitalE: bv8 := 16

  /** The status code of a syntax error in the Lua API. */
  const LuaErrSyntax: int := 3

  const Prompt: string := "> "
  const Prompt2: string := ">> "
  /** The mark that ends the message of an incomplete statement. */
  const EofMark: string := "<eof>"
  /** Size of the line buffer. */
  const MaxInput: nat := 512

  /** The character at `k` of a C string, NUL past its end. */
  function CharAt(s: string, k: nat): char {
    if k < |s| then s[k] else '\0'
  }

  /** The entries of an argument vector are C strings. */
  predicate CStrings(argv: seq<string>) {
    forall j :: 0 <= j < |argv| ==> NoNul(argv[j])
  }

  // ---------------------------------------------------------------- collectargs

  /** What one turn of the option loop does: stop with a result, or go on. */
  datatype Step = Stop(mask: bv8, first: nat) | Next(index: nat, args: bv8)

  /**
   * One turn of the option loop of `collectargs` at index `i` with mask
   * `args`. A stop carries the return value and the value left in `*first`.
   */
  function OptionStep(argv: seq<string>, i: nat, args: bv8): (s: Step)
    requires 1 <= i < |argv|
    ensures s.Next? ==> i < s.index <= |argv|
  {
    var a := argv[i];
    if CharAt(a, 0) != '-' then Stop(args, i)
    else
      var o := CharAt(a, 1);
      if o == '-' then
        if CharAt(a, 2) != '\0' then Stop(HasError, i) else Stop(args, i + 1)
      else if o == '\0' then Stop(args, i)
      else if o == 'E' then
        if CharAt(a, 2) != '\0' then Stop(HasError, i) else Next(i + 1, args | HasCapitalE)
      else if o == 'i' || o == 'v' then
        if CharAt(a, 2) != '\0' then Stop(HasError, i)
        else Next(i + 1, if o == 'i' then args | HasI | HasV else args | HasV)
      else if o == 'e' || o == 'l' then
        var args' := if o == 'e' then args | HasE else args;
        if CharAt(a, 2) != '\0' then Next(i + 1, args')
        else if i + 1 == |argv| || CharAt(argv[i + 1], 0) == '-' then Stop(HasError, i)
        else Next(i + 2, args')
      else Stop(HasError, i)
  }

  /**
   * What the option loop of `collectargs` returns when it reaches index `i`
   * with mask `args`: the mask and the value left in `*first`.
   */
  function CollectFrom(argv: seq<string>, i: nat, args: bv8): (bv8, nat)
    requires 1 <= i <= |argv|
    decreases |argv| - i
  {
    if i == |argv| then (args, i)
    else
      match OptionStep(argv, i, args)
      case Stop(m, first) => (m, first)
      case Next(j, args') => CollectFrom(argv, j, args')
  }

  /**
   * `collectargs`: scans the options from `argv[1]`, returning the mask of
   * those seen (or `HasError`) and the index of the first argument it did
   * not handle.
   */
  method CollectArgs(argv: seq<string>) returns (mask: bv8, first: nat)
    requires |argv| >= 1
    ensures (mask, first) == CollectFrom(argv, 1, 0)
  {
    var args: bv8 := 0;
    var i := 1;
    while i < |argv|
      invariant 1 <= i <= |argv|
      invariant CollectFrom(argv, i, args) == CollectFrom(argv, 1, 0)
    {
      first := i;
      var a := argv[i];
      if CharAt(a, 0) != '-' {
        return args, first;
      }
      var o := CharAt(a, 1);
      if o == '-' {
        if CharAt(a, 2) != '\0' {
          return HasError, first;
        }
        first := i + 1;
        return args, first;
      } else if o == '\0' {
        return args, first;
      } else if o == 'E' {
        if CharAt(a, 2) != '\0' {
          return HasError, first;
        }
        args := args | HasCapitalE;
      } else if o == 'i' || o == 'v' {
        if o == 'i' {
          args := args | HasI;
        }
        if CharAt(a, 2) != '\0' {
          return HasError, first;
        }
        args := args | HasV;
      } else if o == 'e' || o == 'l' {
        if o == 'e' {
          args := args | HasE;
        }
        if CharAt(a, 2) == '\0' {
          i := i + 1;
          if i == |argv| || CharAt(argv[i], 0) == '-' {
            return HasError, first;
          }
        }
      } else {
        return HasError, first;
      }
      i := i + 1;
    }
    first := i;
    mask := args;
  }

  /** A mask the loop can hold before any error: no error bit, and `-i` always with `-v`. */
  predicate CleanMask(m: bv8) {
    m & HasError == 0 && (m & HasI != 0 ==> m & HasV != 0)
  }

  /**
   * One turn from a clean mask stops with exactly `HasError` or with the
   * mask unchanged, or goes on with a clean mask holding every bit it had.
   */
  lemma OptionStepMask(argv: seq<string>, i: nat, args: bv8)
    requires 1 <= i < |argv| && CleanMask(args)
    ensures var s := OptionStep(argv, i, args);
      && (s.Stop? ==> s.mask == HasError || s.mask == args)
      && (s.Next? ==> CleanMask(s.args) && s.args & args == args)
  {
  }

  /** Holding every bit of a larger mask means holding every bit of a smaller one. */
  lemma KeepsBits(m: bv8, larger: bv8, args: bv8)
    requires m & larger == larger && larger & args == args
    ensures m & args == args
  {
  }

  /**
   * From a clean mask, the loop either reports exactly `HasError` or returns
   * a clean mask holding every bit it started with.
   */
  lemma {:induction false} CollectFromMask(argv: seq<string>, i: nat, args: bv8)
    requires 1 <= i <= |argv| && CleanMask(args)
    ensures var m := CollectFrom(argv, i, args).0;
      m == HasError || (CleanMask(m) && m & args == args)
    decreases |argv| - i
  {
    if i < |argv| {
      OptionStepMask(argv, i, args);
      var s := OptionStep(argv, i, args);
      if s.Next? {
        CollectFromMask(argv, s.index, s.args);
        var m := CollectFrom(argv, s.index, s.args).0;
        if m != HasError {
          KeepsBits(m, s.args, args);
        }
      }
    }
  }

  /**
   * Every error return is exactly `HasError`, whatever bits were collected
   * before it, and `-i` never comes without `-v`.
   */
  lemma CollectArgsMask(argv: seq<string>)
    requires |argv| >= 1
    ensures var m := CollectFrom(argv, 1, 0).0;
      (m & HasError != 0 <==> m == HasError) && (m & HasI != 0 ==> m & HasV != 0)
  {
    CollectFromMask(argv, 1, 0);
  }

  /** Where one turn that stops leaves `*first`. */
  lemma OptionStepFirst(argv: seq<string>, i: nat, args: bv8)
    requires 1 <= i < |argv| && CStrings(argv) && args & HasError == 0
    ensures var s := OptionStep(argv, i, args);
      s.Stop? ==>
        && (s.mask == HasError ==> s.first == i && CharAt(argv[i], 0) == '-')
        && (s.mask != HasError ==>
              || (s.first == i && (CharAt(argv[i], 0) != '-' || CharAt(argv[i], 1) == '\0'))
              || (s.first == i + 1 && argv[i] == "--"))
  {
    var a := argv[i];
    if CharAt(a, 0) == '-' && CharAt(a, 1) == '-' && CharAt(a, 2) == '\0' {
      assert NoNul(a);
      assert a == "--";
    }
  }

  /**
   * Where `*first` points: on an error, at the offending option; otherwise
   * at the end of `argv`, at an argument that is not an option, at `-`, or
   * just past `--`.
   */
  lemma {:induction false} CollectFromFirst(argv: seq<string>, i: nat, args: bv8)
    requires 1 <= i <= |argv| && CStrings(argv) && CleanMask(args)
    ensures var (m, first) := CollectFrom(argv, i, args);
      && i <= first <= |argv|
      && (m == HasError ==> first < |argv| && CharAt(argv[first], 0) == '-' && BadOption(argv, first))
      && (m != HasError && first < |argv| ==>
            || CharAt(argv[first], 0) != '-'
            || CharAt(argv[first], 1) == '\0'
            || (first > i && argv[first - 1] == "--"))
    decreases |argv| - i
  {
    if i < |argv| {
      OptionStepFirst(argv, i, args);
      OptionStepWalk(argv, i, args);
      var s := OptionStep(argv, i, args);
      if s.Next? {
        OptionStepMask(argv, i, args);
        CollectFromFirst(argv, s.index, s.args);
      }
    }
  }

  /**
   * Some command lines: `-i` brings `-v` with it, `-l` sets no bit, `--` ends
   * the options, and a bad option, an option with trailing text or a `-e`
   * without its argument give exactly `HasError` at that option.
   */
  lemma CollectArgsExamples()
    ensures CollectFrom(["lua", "-i", "s.lua"], 1, 0) == (HasI | HasV, 2)
    ensures CollectFrom(["lua", "-E", "-l", "m", "-v"], 1, 0) == (HasCapitalE | HasV, 5)
    ensures CollectFrom(["lua", "-ex=1", "--", "-"], 1, 0) == (HasE, 3)
    ensures CollectFrom(["lua", "-v", "-x"], 1, 0) == (HasError, 2)
    ensures CollectFrom(["lua", "-vq"], 1, 0) == (HasError, 1)
    ensures CollectFrom(["lua", "-E", "-e"], 1, 0) == (HasError, 2)
    ensures CollectFrom(["lua", "-e", "-v"], 1, 0) == (HasError, 1)
    ensures CollectFrom(["lua", "---"], 1, 0) == (HasError, 1)
  {
  }

  // ---------------------------------------------------------------- what the option bits mean

  /**
   * The entry at `i` is an option `collectargs` rejects: `--`, `-E`, `-i` or
   * `-v` with extra characters, `-e` or `-l` with no argument in the entry and
   * no next entry or one that starts with `-`, or an unknown letter.
   */
  predicate BadOption(argv: seq<string>, i: nat)
    requires i < |argv|
  {
    var a := argv[i];
    var o := CharAt(a, 1);
    && CharAt(a, 0) == '-'
    && (|| ((o == '-' || o == 'E' || o == 'i' || o == 'v') && CharAt(a, 2) != '\0')
        || ((o == 'e' || o == 'l') && CharAt(a, 2) == '\0' &&
            (i + 1 == |argv| || CharAt(argv[i + 1], 0) == '-'))
        || (o != '-' && o != '\0' && o != 'E' && o != 'i' && o != 'v' && o != 'e' && o != 'l'))
  }

  /** The entry at `i` ends the options: not an option, `-`, anything starting with `--`, or a bad option. */
  predicate EndsOptions(argv: seq<string>, i: nat)
    requires i < |argv|
  {
    CharAt(argv[i], 0) != '-' || CharAt(argv[i], 1) == '-' || CharAt(argv[i], 1) == '\0' || BadOption(argv, i)
  }

  /** A `-e` or `-l` option whose argument is the next entry. */
  predicate TakesNextEntry(a: string) {
    (CharAt(a, 1) == 'e' || CharAt(a, 1) == 'l') && CharAt(a, 2) == '\0'
  }

  /**
   * The options accepted from index `i` on, in order, and the index of the
   * entry that ends them (`|argv|` if none does). An option's argument in the
   * next entry is skipped, not listed.
   */
  function OptionWalk(argv: seq<string>, i: nat): (r: (seq<string>, nat))
    requires 1 <= i <= |argv|
    ensures i <= r.1 <= |argv|
    ensures r.1 < |argv| ==> EndsOptions(argv, r.1)
    ensures r.1 > i ==> CharAt(argv[r.1 - 1], 0) != '-' || CharAt(argv[r.1 - 1], 1) != '-'
    decreases |argv| - i
  {
    if i == |argv| || EndsOptions(argv, i) then ([], i)
    else
      var next := if TakesNextEntry(argv[i]) then i + 2 else i + 1;
      var w := OptionWalk(argv, next);
      ([argv[i]] + w.0, w.1)
  }

  /** One turn of the option loop, against `OptionWalk` and the option bits. */
  lemma OptionStepWalk(argv: seq<string>, i: nat, args: bv8)
    requires 1 <= i < |argv| && CStrings(argv) && CleanMask(args)
    ensures var s := OptionStep(argv, i, args);
      && (s.Next? <==> !EndsOptions(argv, i))
      && (s.Next? ==>
            && s.index == (if TakesNextEntry(argv[i]) then i + 2 else i + 1)
            && (s.args & HasCapitalE != 0 <==> args & HasCapitalE != 0 || argv[i] == "-E")
            && (s.args & HasI != 0 <==> args & HasI != 0 || argv[i] == "-i")
            && (s.args & HasV != 0 <==> args & HasV != 0 || argv[i] == "-i" || argv[i] == "-v"))
      && (s.Stop? ==>
            && (s.mask == HasError <==> BadOption(argv, i))
            && s.first == (if s.mask != HasError && argv[i] == "--" then i + 1 else i))
  {
    var a := argv[i];
    assert NoNul(a);
    if CharAt(a, 0) == '-' && CharAt(a, 2) == '\0' && CharAt(a, 1) != '\0' {
      assert a == [a[0], a[1]];
    }
  }

  /**
   * From a clean mask, the loop reports an error exactly when the entry that
   * ends the options is a bad option, and then leaves `*first` on it.
   * Otherwise `*first` is that entry, or the one after it for `--`; `has_E`
   * is set exactly when `-E` is among the options, `has_i` when `-i` is, and
   * `has_v` when `-i` or `-v` is.
   */
  lemma {:induction false} CollectFromWalk(argv: seq<string>, i: nat, args: bv8)
    requires 1 <= i <= |argv| && CStrings(argv) && CleanMask(args)
    ensures var (m, first) := CollectFrom(argv, i, args);
            var (os, stop) := OptionWalk(argv, i);
      && (m == HasError <==> stop < |argv| && BadOption(argv, stop))
      && (m == HasError ==> first == stop)
      && (m != HasError ==>
            && first == (if stop < |argv| && argv[stop] == "--" then stop + 1 else stop)
            && (m & HasCapitalE != 0 <==> args & HasCapitalE != 0 || "-E" in os)
            && (m & HasI != 0 <==> args & HasI != 0 || "-i" in os)
            && (m & HasV != 0 <==> args & HasV != 0 || "-i" in os || "-v" in os))
    decreases |argv| - i
  {
    if i < |argv| {
      OptionStepWalk(argv, i, args);
      OptionStepMask(argv, i, args);
      var s := OptionStep(argv, i, args);
      if s.Next? {
        CollectFromWalk(argv, s.index, s.args);
        var os' := OptionWalk(argv, s.index).0;
        assert OptionWalk(argv, i).0 == [argv[i]] + os';
        assert forall x :: x in [argv[i]] + os' <==> x == argv[i] || x in os';
      }
    }
  }

  /**
   * What the mask of `collectargs` says about the command line: `has_error`
   * exactly when the options end at a bad option, and otherwise `has_E`,
   * `has_i` and `has_v` exactly for the options `-E`, `-i`, and `-i` or `-v`.
   */
  lemma CollectArgsOptions(argv: seq<string>)
    requires |argv| >= 1 && CStrings(argv)
    ensures var (m, first) := CollectFrom(argv, 1, 0);
            var (os, stop) := OptionWalk(argv, 1);
      && (m == HasError <==> stop < |argv| && BadOption(argv, stop))
      && (m == HasError ==> first == stop)
      && (m != HasError ==>
            && first == (if stop < |argv| && argv[stop] == "--" then stop + 1 else stop)
            && (m & HasCapitalE != 0 <==> "-E" in os)
            && (m & HasI != 0 <==> "-i" in os)
            && (m & HasV != 0 <==> "-i" in os || "-v" in os))
  {
    CollectFromWalk(argv, 1, 0);
  }

  // ---------------------------------------------------------------- runargs

  /** A chunk `runargs` runs: `-e` text, or `-l` library name. */
  datatype Chunk = DoString(code: string) | DoLibrary(name: string)

  /**
   * What `runargs` relies on from index `i` up to `n`: each token it looks at
   * is an option, and a `-e` or `-l` without text has a next entry to take.
   */
  predicate RunnableFrom(argv: seq<string>, i: nat, n: nat)
    requires n <= |argv|
    decreases n - i
  {
    i >= n ||
    (CharAt(argv[i], 0) == '-' &&
     var o := CharAt(argv[i], 1);
     if o == 'e' || o == 'l' then
       if CharAt(argv[i], 2) != '\0' then RunnableFrom(argv, i + 1, n)
       else i + 1 < |argv| && RunnableFrom(argv, i + 2, n)
     else RunnableFrom(argv, i + 1, n))
  }

  /** Whether the entry at `i` is a `-e` or `-l` option. */
  predicate RunsChunk(argv: seq<string>, i: nat)
    requires i < |argv|
  {
    CharAt(argv[i], 1) == 'e' || CharAt(argv[i], 1) == 'l'
  }

  /**
   * The chunk of the `-e` or `-l` option at `i`, and where `runargs` goes on:
   * the argument is the rest of the entry if there is any, else the next entry.
   */
  function ChunkAt(argv: seq<string>, i: nat): (r: (Chunk, nat))
    requires i < |argv| && RunsChunk(argv, i)
    requires CharAt(argv[i], 2) == '\0' ==> i + 1 < |argv|
    ensures r.1 == i + 1 || r.1 == i + 2
  {
    var inline := CharAt(argv[i], 2) != '\0';
    var extra := if inline then argv[i][2..] else argv[i + 1];
    (if CharAt(argv[i], 1) == 'e' then DoString(extra) else DoLibrary(extra), if inline then i + 1 else i + 2)
  }

  /** The chunks of the `-e` and `-l` options from index `i` up to `n`, in order. */
  function ChunksFrom(argv: seq<string>, i: nat, n: nat): seq<Chunk>
    requires n <= |argv| && RunnableFrom(argv, i, n)
    decreases n - i
  {
    if i >= n then []
    else if RunsChunk(argv, i) then
      var (c, next) := ChunkAt(argv, i);
      [c] + ChunksFrom(argv, next, n)
    else ChunksFrom(argv, i + 1, n)
  }

  /** Every chunk of `ran` succeeded, given the ones before it. */
  predicate AllSucceed(ran: seq<Chunk>, succeeds: (seq<Chunk>, Chunk) -> bool)
    decreases |ran|
  {
    ran == [] || (AllSucceed(ran[..|ran| - 1], succeeds) && succeeds(ran[..|ran| - 1], ran[|ran| - 1]))
  }

  lemma AllSucceedSnoc(ran: seq<Chunk>, c: Chunk, succeeds: (seq<Chunk>, Chunk) -> bool)
    ensures (ran + [c])[..|ran|] == ran && (ran + [c])[|ran|] == c
    ensures AllSucceed(ran + [c], succeeds) <==> AllSucceed(ran, succeeds) && succeeds(ran, c)
  {
    assert (ran + [c])[..|ran|] == ran;
  }

  /** Every chunk of a list that all succeeded succeeded, given the ones before it. */
  lemma {:induction false} AllSucceedEach(ran: seq<Chunk>, succeeds: (seq<Chunk>, Chunk) -> bool)
    requires AllSucceed(ran, succeeds)
    ensures forall k :: 0 <= k < |ran| ==> succeeds(ran[..k], ran[k])
    decreases |ran|
  {
    if ran != [] {
      var init := ran[..|ran| - 1];
      AllSucceedEach(init, succeeds);
      forall k | 0 <= k < |init| ensures succeeds(ran[..k], ran[k]) {
        assert init[..k] == ran[..k];
      }
    }
  }

  /** Moving the next chunk from the pending list onto the list of chunks run. */
  lemma AppendRan(ran: seq<Chunk>, c: Chunk, rest: seq<Chunk>, all: seq<Chunk>)
    requires ran + ([c] + rest) == all
    ensures (ran + [c]) + rest == all && ran + [c] <= all
  {
    assert (ran + [c]) + rest == ran + ([c] + rest);
  }

  /** One turn of `runargs`'s walk, as `ChunksFrom` sees it. */
  lemma ChunksFromStep(argv: seq<string>, i: nat, n: nat)
    requires i < n <= |argv| && RunnableFrom(argv, i, n)
    ensures RunsChunk(argv, i) ==>
      && (CharAt(argv[i], 2) == '\0' ==> i + 1 < |argv|)
      && RunnableFrom(argv, ChunkAt(argv, i).1, n)
      && ChunksFrom(argv, i, n) == [ChunkAt(argv, i).0] + ChunksFrom(argv, ChunkAt(argv, i).1, n)
    ensures !RunsChunk(argv, i) ==>
      RunnableFrom(argv, i + 1, n) && ChunksFrom(argv, i, n) == ChunksFrom(argv, i + 1, n)
  {
  }

  /**
   * `runargs`: runs the `-e`/`-l` chunks of `argv[1..n]` in order and stops
   * at the first that fails. `ran` lists the chunks it ran. It returns 1 when
   * all of them ran and succeeded, and 0 when the last one it ran failed.
   */
  method RunArgs(argv: seq<string>, n: nat, succeeds: (seq<Chunk>, Chunk) -> bool)
    returns (status: int, ran: seq<Chunk>)
    requires n <= |argv| && CStrings(argv) && RunnableFrom(argv, 1, n)
    ensures status == 0 || status == 1
    ensures ran <= ChunksFrom(argv, 1, n)
    ensures status == 1 ==> ran == ChunksFrom(argv, 1, n) && AllSucceed(ran, succeeds)
    ensures status == 0 ==>
      && ran != []
      && AllSucceed(ran[..|ran| - 1], succeeds)
      && !succeeds(ran[..|ran| - 1], ran[|ran| - 1])
  {
    ran := [];
    var i := 1;
    while i < n
      invariant 1 <= i
      invariant RunnableFrom(argv, i, n)
      invariant ran + ChunksFrom(argv, i, n) == ChunksFrom(argv, 1, n)
      invariant AllSucceed(ran, succeeds)
      decreases n - i
    {
      ChunksFromStep(argv, i, n);
      if RunsChunk(argv, i) {
        var (chunk, next) := ChunkAt(argv, i);
        var ok := succeeds(ran, chunk);
        AllSucceedSnoc(ran, chunk, succeeds);
        AppendRan(ran, chunk, ChunksFrom(argv, next, n), ChunksFrom(argv, 1, n));
        ran := ran + [chunk];
        if !ok {
          return 0, ran;
        }
        i := next;
      } else {
        i := i + 1;
      }
    }
    status := 1;
  }

  // ---------------------------------------------------------------- from collectargs to runargs

  /** Whether a `-e` chunk is among `cs`. */
  predicate HasDoString(cs: seq<Chunk>) {
    exists k :: 0 <= k < |cs| && cs[k].DoString?
  }

  lemma HasDoStringCons(c: Chunk, cs: seq<Chunk>)
    ensures HasDoString([c] + cs) <==> c.DoString? || HasDoString(cs)
  {
    if c.DoString? {
      assert ([c] + cs)[0] == c;
    }
    if HasDoString(cs) {
      var k :| 0 <= k < |cs| && cs[k].DoString?;
      assert ([c] + cs)[k + 1] == cs[k];
    }
    if HasDoString([c] + cs) && !c.DoString? {
      var k :| 0 <= k < |[c] + cs| && ([c] + cs)[k].DoString?;
      assert k > 0 && cs[k - 1] == ([c] + cs)[k];
    }
  }

  /** How one turn of the option loop moves, as `runargs` will retrace it. */
  lemma OptionStepMoves(argv: seq<string>, i: nat, args: bv8)
    requires 1 <= i < |argv| && CleanMask(args)
    ensures var s := OptionStep(argv, i, args);
            var o := CharAt(argv[i], 1);
      && (s.Next? ==>
            && CharAt(argv[i], 0) == '-'
            && (if (o == 'e' || o == 'l') && CharAt(argv[i], 2) == '\0'
                then s.index == i + 2 && i + 1 < |argv|
                else s.index == i + 1)
            && (s.args & HasE != 0 <==> args & HasE != 0 || o == 'e'))
      && (s.Stop? && s.mask != HasError ==>
            && s.mask == args
            && (s.first == i || (s.first == i + 1 && CharAt(argv[i], 0) == '-' && o == '-')))
  {
  }

  /**
   * From a clean mask, a loop that ends without error leaves `*first` where
   * `runargs` can walk every option before it, and has seen `-e` exactly
   * when a `-e` option lies on that walk.
   */
  lemma {:induction false} CollectedOptionsRun(argv: seq<string>, i: nat, args: bv8)
    requires 1 <= i <= |argv| && CleanMask(args)
    requires CollectFrom(argv, i, args).0 != HasError
    ensures var (m, first) := CollectFrom(argv, i, args);
      && i <= first <= |argv|
      && RunnableFrom(argv, i, first)
      && (m & HasE != 0 <==> args & HasE != 0 || HasDoString(ChunksFrom(argv, i, first)))
    decreases |argv| - i
  {
    if i < |argv| {
      OptionStepMoves(argv, i, args);
      OptionStepMask(argv, i, args);
      var s := OptionStep(argv, i, args);
      if s.Next? {
        CollectedOptionsRun(argv, s.index, s.args);
        var first := CollectFrom(argv, i, args).1;
        var o := CharAt(argv[i], 1);
        if RunsChunk(argv, i) {
          var c := ChunkAt(argv, i).0;
          assert ChunksFrom(argv, i, first) == [c] + ChunksFrom(argv, s.index, first);
          HasDoStringCons(c, ChunksFrom(argv, s.index, first));
        }
      } else {
        assert ChunksFrom(argv, i, s.first) == [];
      }
    }
  }

  /**
   * After `collectargs` succeeds, `runargs` up to `*first` is safe, and the
   * `has_e` bit says whether a `-e` option appears before `*first`. Whether
   * that chunk runs depends on the chunks before it: `RunArgs` stops at the
   * first that fails.
   */
  lemma CollectArgsThenRunArgs(argv: seq<string>)
    requires |argv| >= 1
    requires CollectFrom(argv, 1, 0).0 != HasError
    ensures var (m, first) := CollectFrom(argv, 1, 0);
      && first <= |argv|
      && RunnableFrom(argv, 1, first)
      && (m & HasE != 0 <==> HasDoString(ChunksFrom(argv, 1, first)))
  {
    CollectedOptionsRun(argv, 1, 0);
  }

  // ---------------------------------------------------------------- the script

  /** Where `handle_script` loads the script from. */
  datatype ScriptInput = Stdin | ScriptFile(name: string)

  /**
   * `handle_script`'s choice of input for the script at `argv[script]`: the
   * name `-` means standard input, unless `--` came just before it.
   */
  function ScriptSource(argv: seq<string>, script: nat): (src: ScriptInput)
    requires 1 <= script < |argv| && CStrings(argv)
    ensures src == Stdin <==> argv[script] == "-" && argv[script - 1] != "--"
    ensures src.ScriptFile? ==> src.name == argv[script]
  {
    if argv[script] == "-" && argv[script - 1] != "--" then Stdin else ScriptFile(argv[script])
  }

  /**
   * The script `handle_script` gets after a successful `collectargs` comes
   * from stdin exactly when the options ended at `-` itself. A `-` reached
   * past `--` names a file, and so does a `-` right after a program name
   * `--`, since `handle_script` looks only at the entry before the script.
   */
  lemma ScriptFromCommandLine(argv: seq<string>)
    requires |argv| >= 1 && CStrings(argv)
    requires var (m, first) := CollectFrom(argv, 1, 0); m != HasError && first < |argv|
    ensures var first := CollectFrom(argv, 1, 0).1;
      && 1 <= first
      && (ScriptSource(argv, first) == Stdin <==>
            first == OptionWalk(argv, 1).1 && argv[first] == "-" && (first > 1 || argv[0] != "--"))
  {
    CollectFromWalk(argv, 1, 0);
  }

  /** `lua -` reads the script from stdin; `lua -- -` loads a file named `-`. */
  lemma ScriptExamples()
    ensures CollectFrom(["lua", "-"], 1, 0) == (0, 1)
    ensures ScriptSource(["lua", "-"], 1) == Stdin
    ensures CollectFrom(["lua", "--", "-"], 1, 0) == (0, 2)
    ensures ScriptSource(["lua", "--", "-"], 2) == ScriptFile("-")
  {
  }

  // ---------------------------------------------------------------- line input

  /** A value on the Lua stack or in a global, as far as these functions look at it. */
  datatype LuaValue = Nil | Str(s: string) | Num(n: int) | Other

  /** `lua_tostring`: strings as they are, integers in decimal, nothing for other values. */
  function ToLString(v: LuaValue): Option<string> {
    match v
    case Str(s) => Some(s)
    case Num(n) => Some(IntToString(n))
    case _ => None
  }

  /** The global `get_prompt` looks up: `_PROMPT` on a first line, `_PROMPT2` otherwise. */
  function PromptGlobal(globals: map<string, LuaValue>, firstline: bool): LuaValue {
    var name := if firstline then "_PROMPT" else "_PROMPT2";
    if name in globals then globals[name] else Nil
  }

  /** `get_prompt`: the prompt global as a string, or the default prompt. */
  function GetPrompt(globals: map<string, LuaValue>, firstline: bool): (p: string)
    ensures PromptGlobal(globals, firstline).Str? ==> p == PromptGlobal(globals, firstline).s
    ensures PromptGlobal(globals, firstline).Num? ==> p == IntToString(PromptGlobal(globals, firstline).n)
    ensures (PromptGlobal(globals, firstline).Nil? || PromptGlobal(globals, firstline).Other?) ==>
              p == (if firstline then Prompt else Prompt2)
  {
    var p := ToLString(PromptGlobal(globals, firstline));
    if p.Some? then p.value else if firstline then Prompt else Prompt2
  }

  predicate EndsWithEofMark(msg: string) {
    |msg| >= |EofMark| && msg[|msg| - |EofMark|..] == EofMark
  }

  /**
   * `incomplete`: whether a load failed only because the input ended early.
   * It answers 1, and pops the message, exactly when the status is a syntax
   * error whose message ends with `<eof>`; otherwise it answers 0 and leaves
   * the stack alone.
   */
  function Incomplete(status: int, stack: seq<LuaValue>): (r: (int, seq<LuaValue>))
    requires status == LuaErrSyntax ==> |stack| > 0
    ensures r.0 == 1 <==>
      status == LuaErrSyntax && stack[|stack| - 1].Str? && EndsWithEofMark(stack[|stack| - 1].s)
    ensures r.0 == 1 ==> r.1 == stack[..|stack| - 1]
    ensures r.0 != 1 ==> r.0 == 0 && r.1 == stack
  {
    if status == LuaErrSyntax then
      var msg := ToLString(stack[|stack| - 1]);
      var lmsg := if msg.Some? then |msg.value| else 0;
      if lmsg >= |EofMark| && msg.value[lmsg - |EofMark|..] == EofMark then (1, stack[..|stack| - 1])
      else (0, stack)
    else (0, stack)
  }

  /**
   * The line `pushline` pushes: at most one trailing newline removed, and on
   * a first line a leading `=` rewritten to `return `.
   */
  function NormaliseLine(line: string, firstline: bool): string {
    var b := if |line| > 0 && line[|line| - 1] == '\n' then line[..|line| - 1] else line;
    if firstline && |b| > 0 && b[0] == '=' then "return " + b[1..] else b
  }

  /** A buffer that holds `line` and then a NUL has the C length of `line`. */
  lemma CLengthOfBuffer(line: string, buf: seq<char>)
    requires |line| < |buf| && buf[..|line|] == line && buf[|line|] == '\0'
    ensures CLength(buf) == CLength(line)
  {
  }

  /** `strlen(b)`: scans the buffer up to its first NUL, which comes no later than `limit`. */
  method StrLen(b: array<char>, limit: nat) returns (l: nat)
    requires limit < b.Length && b[limit] == '\0'
    ensures l == CLength(b[..])
  {
    l := 0;
    while b[l] != '\0'
      invariant l <= limit && NoNul(b[..l])
      decreases limit - l
    {
      assert b[..l + 1] == b[..l] + [b[l]];
      l := l + 1;
    }
  }

  /** A line as `fgets` delivers it: shorter than the buffer, and a newline only at the end. */
  predicate ValidInput(line: string) {
    && |line| < MaxInput
    && forall k :: 0 <= k < |line| - 1 ==> line[k] != '\n'
  }

  /** What `fgets` leaves in the line buffer: the line read, then a NUL. */
  method ReadIntoBuffer(line: string) returns (b: array<char>)
    requires |line| < MaxInput
    ensures fresh(b) && b.Length == MaxInput
    ensures b[..|line|] == line && b[|line|] == '\0'
  {
    b := new char[MaxInput];
    forall k | 0 <= k < |line| {
      b[k] := line[k];
    }
    b[|line|] := '\0';
  }

  /** Removes, in place, a newline that ends the C string `b[..l]`, returning the new length. */
  method TrimNewline(b: array<char>, l: nat) returns (l': nat)
    requires l < b.Length && b[l] == '\0'
    modifies b
    ensures l' <= l && b[l'] == '\0'
    ensures var text := old(b[..l]);
      b[..l'] == (if |text| > 0 && text[|text| - 1] == '\n' then text[..|text| - 1] else text)
  {
    l' := l;
    if l > 0 && b[l - 1] == '\n' {
      l' := l - 1;
      b[l'] := '\0';
    }
  }

  /**
   * The buffer work of `pushline` on the line read: `strlen`, the in-place
   * removal of a final newline, and the rewriting of a leading `=`.
   */
  method LineToPush(line: string, firstline: bool) returns (pushed: string)
    requires ValidInput(line)
    ensures pushed == NormaliseLine(CText(line), firstline)
  {
    var b := ReadIntoBuffer(line);
    var l := StrLen(b, |line|);
    CLengthOfBuffer(line, b[..]);
    assert b[..l] == CText(line) && b[l] == '\0' by {
      assert b[..l] == b[..|line|][..l];
    }
    l := TrimNewline(b, l);
    if firstline && b[0] == '=' {
      pushed := "return " + b[1..l];
    } else {
      pushed := b[..l];
    }
  }

  /**
   * `pushline`: shows the prompt up to its first NUL, takes the line read
   * (`None` at end of input), and pushes its C text normalised. At end of
   * input it answers 0 and leaves the prompt value on the stack for the
   * caller to pop.
   */
  method PushLine(stack: seq<LuaValue>, globals: map<string, LuaValue>, firstline: bool, input: Option<string>)
    returns (r: int, shown: string, stack': seq<LuaValue>)
    requires input.Some? ==> ValidInput(input.value)
    ensures shown == CText(GetPrompt(globals, firstline))
    ensures r == 1 <==> input.Some?
    ensures r != 1 ==> r == 0 && stack' == stack + [PromptGlobal(globals, firstline)]
    ensures r == 1 ==> stack' == stack + [Str(NormaliseLine(CText(input.value), firstline))]
    ensures r == 1 && NoNul(input.value) ==> stack' == stack + [Str(NormaliseLine(input.value, firstline))]
  {
    shown := CText(GetPrompt(globals, firstline));
    stack' := stack + [PromptGlobal(globals, firstline)];
    if input.None? || |stack'| < 1 {
      return 0, shown, stack';
    }
    stack' := stack'[..|stack'| - 1];
    var pushed := LineToPush(input.value, firstline);
    if NoNul(input.value) {
      CTextNoNul(input.value);
    }
    stack' := stack' + [Str(pushed)];
    r := 1;
  }

  /** A NUL in the line read cuts what is pushed: `"ab\0cd\n"` pushes `"ab"`. */
  lemma PushLineStopsAtNul()
    ensures NormaliseLine(CText("ab\0cd\n"), false) == "ab"
    ensures NormaliseLine(CText("=x\0\n"), true) == "return x"
  {
    assert CLength("ab\0cd\n") == 2;
    assert CLength("=x\0\n") == 2;
  }

  /** A newline that ends the line read makes no difference to what is pushed. */
  lemma NormaliseIgnoresFinalNewline(line: string, firstline: bool)
    requires line == [] || line[|line| - 1] != '\n'
    ensures NormaliseLine(line + "\n", firstline) == NormaliseLine(line, firstline)
  {
    assert (line + "\n")[..|line|] == line;
  }

  /** Only the first line of a statement has `=` rewritten; continuation lines lose at most their newline. */
  lemma NormaliseContinuationLine(line: string)
    ensures var r := NormaliseLine(line, false); line == r || line == r + "\n"
  {
  }

  /** On a first line, `=expr` becomes `return expr`. */
  lemma NormaliseFirstLineEquals(rest: string)
    requires rest == [] || rest[|rest| - 1] != '\n'
    ensures NormaliseLine("=" + rest, true) == "return " + rest
  {
    assert ("=" + rest)[1..] == rest;
  }
}
