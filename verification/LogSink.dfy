/** The date and size rotating sink, src/core/logging.cpp:36-106, over a file system that maps
    names to bytes. */
module LogSink {
  import opened Basics
  import opened LogNames

  type Files = map<string, Bytes>

  datatype Config = Config(maxSize: nat, maxFiles: nat)

  /** `base` is the open file. */
  datatype Sink = Sink(files: Files, base: string, size: nat)

  function File(files: Files, name: string): Option<Bytes> {
    if name in files then Some(files[name]) else None
  }

  /** Opening for append creates a missing file. */
  function Opened(files: Files, name: string): Files {
    if name in files then files else files[name := []]
  }

  /** One turn of the loop of Rotate: remove the target, rename the source to it. */
  function ShiftOne(files: Files, base: string, i: nat): Files
    requires i > 0
  {
    var src, target := CalcFilename(base, i - 1), CalcFilename(base, i);
    if src !in files then files
    else
      var removed := files - {target};
      if src in removed then (removed - {src})[target := removed[src]] else removed
  }

  /** The loop from index i down. */
  function ShiftDown(files: Files, base: string, i: nat): Files
    decreases i
  {
    if i == 0 then files else ShiftDown(ShiftOne(files, base, i), base, i - 1)
  }

  function Rotated(files: Files, base: string, maxFiles: nat): Files {
    Opened(ShiftDown(files, base, maxFiles), base)
  }

  function DateChecked(s: Sink, today: string): Sink {
    if today == s.base then s
    else
      var files := Opened(s.files, today);
      Sink(files, today, |files[today]|)
  }

  function Written(s: Sink, msg: Bytes, size: nat): Sink
    requires s.base in s.files
  {
    s.(files := s.files[s.base := s.files[s.base] + msg], size := size)
  }

  predicate MustRotate(cfg: Config, s: Sink, msg: Bytes)
    requires s.base in s.files
  {
    s.size + |msg| > cfg.maxSize && |s.files[s.base]| > 0
  }

  /** sink_it_: check the date, rotate if the message does not fit a nonempty file, write. */
  function SinkIt(cfg: Config, s: Sink, today: string, msg: Bytes): (r: Sink)
    requires s.base in s.files
    ensures r.base in r.files && r.base == today
  {
    var c := DateChecked(s, today);
    if MustRotate(cfg, c, msg)
    then Written(c.(files := Rotated(c.files, today, cfg.maxFiles)), msg, |msg|)
    else Written(c, msg, c.size + |msg|)
  }

  // Exactly what Rotate does, for any set of files, gaps included.

  lemma ShiftOneExact(files: Files, base: string, i: nat)
    requires i > 0
    ensures var r, src, target := ShiftOne(files, base, i), CalcFilename(base, i - 1), CalcFilename(base, i);
            File(r, target) == (if src in files then File(files, src) else File(files, target)) &&
            File(r, src) == None &&
            forall name :: name != src && name != target ==> File(r, name) == File(files, name)
  {
    if CalcFilename(base, i - 1) == CalcFilename(base, i) {
      IndexInjective(base, i - 1, i);
    }
  }

  /** Index i takes over from index i - 1; without a file there it ends up empty, except that
      the last index keeps its old file; nothing else changes. So no file is overwritten
      before it has moved. */
  lemma {:induction false} RotateExact(files: Files, base: string, n: nat)
    ensures var r := ShiftDown(files, base, n);
            (forall i :: 1 <= i <= n ==>
               File(r, CalcFilename(base, i)) ==
               if CalcFilename(base, i - 1) in files then File(files, CalcFilename(base, i - 1))
               else if i == n then File(files, CalcFilename(base, i)) else None) &&
            (n >= 1 ==> File(r, base) == None) &&
            (forall name :: (forall i :: 0 <= i <= n ==> name != CalcFilename(base, i)) ==>
                              File(r, name) == File(files, name))
    decreases n
  {
    if n > 0 {
      var one := ShiftOne(files, base, n);
      ShiftOneExact(files, base, n);
      RotateExact(one, base, n - 1);
      var r := ShiftDown(one, base, n - 1);
      forall i | 0 <= i < n ensures CalcFilename(base, i) != CalcFilename(base, n) {
        if CalcFilename(base, i) == CalcFilename(base, n) {
          IndexInjective(base, i, n);
        }
      }
      forall i | 0 <= i < n - 1 ensures File(one, CalcFilename(base, i)) == File(files, CalcFilename(base, i)) {
        if CalcFilename(base, i) == CalcFilename(base, n - 1) {
          IndexInjective(base, i, n - 1);
        }
      }
      assert File(r, CalcFilename(base, n)) == File(one, CalcFilename(base, n));
      assert File(one, CalcFilename(base, n - 1)) == None;
      assert CalcFilename(base, 0) == base;
    }
  }

  /** After Rotate the size counter 0 is right exactly if there is at least one backup file:
      without any, the full file is opened again. */
  lemma RotateEmptiesBaseIff(files: Files, base: string, maxFiles: nat)
    requires base in files && |files[base]| > 0
    ensures base in Rotated(files, base, maxFiles)
    ensures Rotated(files, base, maxFiles)[base] == [] <==> maxFiles >= 1
  {
    RotateExact(files, base, maxFiles);
  }

  // The imperative form.

  class DateRotatingFileSink {
    const maxSize: nat
    const maxFiles: nat
    var files: Files
    var baseFilename: string
    var currentSize: nat

    ghost predicate Valid()
      reads this
    {
      baseFilename in files
    }

    ghost function State(): Sink
      reads this
    {
      Sink(files, baseFilename, currentSize)
    }

    function Cfg(): Config { Config(maxSize, maxFiles) }

    constructor (files: Files, base: string, size: nat, num: nat)
      ensures Valid()
      ensures maxSize == (if size < 104857600 then 104857600 else size)
      ensures maxFiles == (if num < 1000 then num else 1000)
      ensures State() == Sink(Opened(files, base), base, |Opened(files, base)[base]|)
    {
      maxSize := if size < 104857600 then 104857600 else size;
      maxFiles := if num < 1000 then num else 1000;
      this.files := Opened(files, base);
      baseFilename := base;
      currentSize := |Opened(files, base)[base]|;
    }

    method CheckDateAndRotate(today: string)
      requires Valid()
      modifies this
      ensures Valid() && State() == DateChecked(old(State()), today)
    {
      if today == baseFilename {
        return;
      }
      baseFilename := today;
      if baseFilename !in files {
        files := files[baseFilename := []];
      }
      currentSize := |files[baseFilename]|;
    }

    method Rotate()
      requires Valid()
      modifies this
      ensures Valid() && State() == Sink(Rotated(old(files), baseFilename, maxFiles), old(baseFilename), 0)
    {
      var i: nat := maxFiles;
      while i > 0
        invariant baseFilename == old(baseFilename) && i <= maxFiles
        invariant ShiftDown(files, baseFilename, i) == ShiftDown(old(files), baseFilename, maxFiles)
      {
        var src := CalcFilename(baseFilename, i - 1);
        if src in files {
          var target := CalcFilename(baseFilename, i);
          ghost var before := files;
          files := files - {target};
          if src in files {
            var content := files[src];
            files := (files - {src})[target := content];
          }
          assert files == ShiftOne(before, baseFilename, i);
        }
        i := i - 1;
      }
      if baseFilename !in files {
        files := files[baseFilename := []];
      }
      currentSize := 0;
    }

    method SinkMessage(today: string, formatted: Bytes)
      requires Valid()
      modifies this
      ensures Valid() && State() == SinkIt(Cfg(), old(State()), today, formatted)
    {
      CheckDateAndRotate(today);
      var newSize := currentSize + |formatted|;
      if newSize > maxSize {
        if |files[baseFilename]| > 0 {
          Rotate();
          newSize := |formatted|;
        }
      }
      files := files[baseFilename := files[baseFilename] + formatted];
      currentSize := newSize;
    }
  }
}
