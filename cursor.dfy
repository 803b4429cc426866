/** The cursor-driven fold shared by the section and item parsers: a marker line opens
    (or reopens) a key with a fresh value, and every following line extends the value of
    the key last opened. */
module Cursors {
  import opened Base
  import opened OrdMaps

  /** What one line does to the fold. */
  datatype Mark<V> =
    /** opens `name` afresh with `init` and makes it current */
    | Open(name: string, init: V)
    /** extends the current key's value with `text` */
    | Add(text: string)
    /** changes nothing */
    | Skip
    /** fails on its own with `error` */
    | Fail(error: Error)

  /** The map built so far and the key last opened. */
  datatype Cursor<V> = Cursor(result: OrdMap<V>, current: Option<string>)

  predicate Inv<V>(st: Cursor<V>) {
    st.current.Some? ==> st.current.value in st.result.vals
  }

  /** One line, at index `i`. A line extending nothing fails with `orphan(i)`, a failing
      line with its own error. */
  function Step<V>(st: Cursor<V>, i: nat, m: Mark<V>, join: (V, string) -> V, orphan: nat -> Error): (r: Result<Cursor<V>>)
    requires Inv(st)
    ensures r.Ok? ==> Inv(r.value)
  {
    match m
    case Open(name, init) => Ok(Cursor(st.result.Put(name, init), Some(name)))
    case Add(t) =>
      if st.current.None? then Err(orphan(i))
      else Ok(Cursor(st.result.Put(st.current.value, join(st.result.vals[st.current.value], t)), st.current))
    case Skip => Ok(st)
    case Fail(e) => Err(e)
  }

  /** The state after the first `n` lines, starting from `start`. */
  function UpTo<V>(start: Cursor<V>, ms: seq<Mark<V>>, n: nat, join: (V, string) -> V, orphan: nat -> Error): (r: Result<Cursor<V>>)
    requires Inv(start)
    requires n <= |ms|
    ensures r.Ok? ==> Inv(r.value)
  {
    if n == 0 then Ok(start)
    else
      var st :- UpTo(start, ms, n - 1, join, orphan);
      Step(st, n - 1, ms[n - 1], join, orphan)
  }

  /** The fold keeps the map's keys distinct and listed. */
  lemma {:induction false} UpToValid<V>(start: Cursor<V>, ms: seq<Mark<V>>, n: nat, join: (V, string) -> V, orphan: nat -> Error)
    requires Inv(start) && start.result.Valid()
    requires n <= |ms|
    ensures UpTo(start, ms, n, join, orphan).Ok? ==> UpTo(start, ms, n, join, orphan).value.result.Valid()
  {
    if n > 0 {
      UpToValid(start, ms, n - 1, join, orphan);
    }
  }

  function Fresh<V>(): (r: Cursor<V>)
    ensures Inv(r) && r.result.Valid()
  {
    Cursor(Empty(), None)
  }

  /** Once a prefix fails, every longer prefix fails the same way. */
  lemma {:induction false} ErrPersists<V>(start: Cursor<V>, ms: seq<Mark<V>>, n: nat, m: nat, join: (V, string) -> V, orphan: nat -> Error)
    requires Inv(start)
    requires n <= m <= |ms|
    requires UpTo(start, ms, n, join, orphan).Err?
    ensures UpTo(start, ms, m, join, orphan) == UpTo(start, ms, n, join, orphan)
    decreases m
  {
    if m > n {
      ErrPersists(start, ms, n, m - 1, join, orphan);
    }
  }

  /** A prefix of a successful fold succeeds. */
  lemma PrefixOk<V>(start: Cursor<V>, ms: seq<Mark<V>>, n: nat, m: nat, join: (V, string) -> V, orphan: nat -> Error)
    requires Inv(start)
    requires n <= m <= |ms|
    requires UpTo(start, ms, m, join, orphan).Ok?
    ensures UpTo(start, ms, n, join, orphan).Ok?
  {
    if UpTo(start, ms, n, join, orphan).Err? {
      ErrPersists(start, ms, n, m, join, orphan);
    }
  }

  /** Whether any of the lines before index `n` opens a key. */
  predicate OpenBefore<V>(ms: seq<Mark<V>>, n: nat)
    requires n <= |ms|
  {
    exists j :: 0 <= j < n && ms[j].Open?
  }

  /** Whether line `i` fails when reached from a fresh start: it fails on its own, or it
      extends while nothing has been opened. */
  predicate Fails<V>(ms: seq<Mark<V>>, i: nat)
    requires i < |ms|
  {
    ms[i].Fail? || (ms[i].Add? && !OpenBefore(ms, i))
  }

  /** The error a failing line `i` raises. */
  function FailureOf<V>(m: Mark<V>, i: nat, orphan: nat -> Error): Error {
    if m.Fail? then m.error else orphan(i)
  }

  /** From a fresh start the fold fails exactly when some line fails, and then with the
      error of the first failing line; an extending line fails only when no line before it
      extends. */
  lemma {:induction false} ErrorAt<V>(ms: seq<Mark<V>>, n: nat, join: (V, string) -> V, orphan: nat -> Error)
    requires n <= |ms|
    ensures UpTo(Fresh(), ms, n, join, orphan).Err? <==> exists i :: 0 <= i < n && Fails(ms, i)
    ensures UpTo(Fresh(), ms, n, join, orphan).Err? ==>
      exists i :: 0 <= i < n && Fails(ms, i)
        && (forall j :: 0 <= j < i ==> !Fails(ms, j))
        && UpTo(Fresh(), ms, n, join, orphan).error == FailureOf(ms[i], i, orphan)
    ensures UpTo(Fresh(), ms, n, join, orphan).Ok? ==>
      (UpTo(Fresh(), ms, n, join, orphan).value.current.Some? <==> OpenBefore(ms, n))
  {
    ErrorByFirst(ms, n, join, orphan);
    FirstFailFirst(ms, n);
    var f := FirstFail(ms, n);
    if f < n {
      assert Fails(ms, f) && (forall j :: 0 <= j < f ==> !Fails(ms, j));
    }
  }

  /** The index of the first failing line before `n`, or `n` when there is none. */
  function FirstFail<V>(ms: seq<Mark<V>>, n: nat): (r: nat)
    requires n <= |ms|
    ensures r <= n
  {
    if n == 0 then 0
    else if FirstFail(ms, n - 1) < n - 1 then FirstFail(ms, n - 1)
    else if Fails(ms, n - 1) then n - 1
    else n
  }

  lemma {:induction false} FirstFailFirst<V>(ms: seq<Mark<V>>, n: nat)
    requires n <= |ms|
    ensures FirstFail(ms, n) < n ==> Fails(ms, FirstFail(ms, n))
    ensures forall j :: 0 <= j < FirstFail(ms, n) ==> !Fails(ms, j)
  {
    if n > 0 {
      FirstFailFirst(ms, n - 1);
    }
  }

  /** The fold from a fresh start fails exactly at the first failing line. */
  lemma {:induction false} ErrorByFirst<V>(ms: seq<Mark<V>>, n: nat, join: (V, string) -> V, orphan: nat -> Error)
    requires n <= |ms|
    ensures UpTo(Fresh(), ms, n, join, orphan).Err? <==> FirstFail(ms, n) < n
    ensures UpTo(Fresh(), ms, n, join, orphan).Err? ==>
      UpTo(Fresh(), ms, n, join, orphan).error == FailureOf(ms[FirstFail(ms, n)], FirstFail(ms, n), orphan)
    ensures UpTo(Fresh(), ms, n, join, orphan).Ok? ==>
      (UpTo(Fresh(), ms, n, join, orphan).value.current.Some? <==> OpenBefore(ms, n))
  {
    if n > 0 {
      ErrorByFirst(ms, n - 1, join, orphan);
      if UpTo(Fresh(), ms, n - 1, join, orphan).Ok? {
        FirstFailFirst(ms, n - 1);
        ErrorAtStep(ms, n - 1, join, orphan);
      }
    }
  }

  /** One more line after a successful prefix in which no line failed. */
  lemma ErrorAtStep<V>(ms: seq<Mark<V>>, n: nat, join: (V, string) -> V, orphan: nat -> Error)
    requires n < |ms|
    requires UpTo(Fresh(), ms, n, join, orphan).Ok?
    requires UpTo(Fresh(), ms, n, join, orphan).value.current.Some? <==> OpenBefore(ms, n)
    ensures UpTo(Fresh(), ms, n + 1, join, orphan).Err? <==> Fails(ms, n)
    ensures UpTo(Fresh(), ms, n + 1, join, orphan).Err? ==>
      UpTo(Fresh(), ms, n + 1, join, orphan).error == FailureOf(ms[n], n, orphan)
    ensures UpTo(Fresh(), ms, n + 1, join, orphan).Ok? ==>
      (UpTo(Fresh(), ms, n + 1, join, orphan).value.current.Some? <==> OpenBefore(ms, n + 1))
  {
    assert OpenBefore(ms, n + 1) <==> OpenBefore(ms, n) || ms[n].Open?;
  }

  /** An extending line fails only when no earlier line extends. */
  lemma FirstOrphan<V>(ms: seq<Mark<V>>, i: nat)
    requires i < |ms| && ms[i].Add? && !OpenBefore(ms, i)
    ensures forall j :: 0 <= j < i && ms[j].Add? ==> Fails(ms, j)
  {
    forall j | 0 <= j < i && ms[j].Add?
      ensures Fails(ms, j)
    {
      assert !OpenBefore(ms, j);
    }
  }

  /** A successful fold met no failing line. */
  lemma {:induction false} NoFail<V>(start: Cursor<V>, ms: seq<Mark<V>>, n: nat, join: (V, string) -> V, orphan: nat -> Error)
    requires Inv(start)
    requires n <= |ms|
    requires UpTo(start, ms, n, join, orphan).Ok?
    ensures forall j :: 0 <= j < n ==> !ms[j].Fail?
  {
    if n > 0 {
      PrefixOk(start, ms, n - 1, n, join, orphan);
      NoFail(start, ms, n - 1, join, orphan);
    }
  }

  /** The keys are those of `start` and the names opened so far. */
  lemma {:induction false} Keys<V>(start: Cursor<V>, ms: seq<Mark<V>>, n: nat, join: (V, string) -> V, orphan: nat -> Error)
    requires Inv(start)
    requires n <= |ms|
    requires UpTo(start, ms, n, join, orphan).Ok?
    ensures forall k :: k in UpTo(start, ms, n, join, orphan).value.result.vals <==>
      k in start.result.vals || exists j :: 0 <= j < n && ms[j].Open? && ms[j].name == k
  {
    if n > 0 {
      PrefixOk(start, ms, n - 1, n, join, orphan);
      Keys(start, ms, n - 1, join, orphan);
    }
  }

  /** `v` extended by the texts of the extending lines with index in [i, e), in order. */
  function Accum<V>(ms: seq<Mark<V>>, i: nat, e: nat, v: V, join: (V, string) -> V): V
    requires i <= e <= |ms|
    decreases e - i
  {
    if e == i then v
    else
      var a := Accum(ms, i, e - 1, v, join);
      if ms[e - 1].Add? then join(a, ms[e - 1].text) else a
  }

  /** While nothing is opened, extending lines extend the current key. */
  lemma {:induction false} Body<V>(start: Cursor<V>, ms: seq<Mark<V>>, i: nat, e: nat, k: string,
                                   join: (V, string) -> V, orphan: nat -> Error)
    requires Inv(start)
    requires i <= e <= |ms|
    requires UpTo(start, ms, i, join, orphan).Ok? && UpTo(start, ms, i, join, orphan).value.current == Some(k)
    requires forall j :: i <= j < e ==> !ms[j].Open? && !ms[j].Fail?
    ensures var st := UpTo(start, ms, i, join, orphan).value;
      UpTo(start, ms, e, join, orphan) ==
        Ok(Cursor(st.result.Put(k, Accum(ms, i, e, st.result.vals[k], join)), Some(k)))
    decreases e - i
  {
    var st := UpTo(start, ms, i, join, orphan).value;
    if e == i {
      assert st.result.vals[k := st.result.vals[k]] == st.result.vals;
    } else {
      Body(start, ms, i, e - 1, k, join, orphan);
      BodyStep(UpTo(start, ms, e - 1, join, orphan).value, e - 1, ms[e - 1], st.result, k,
               Accum(ms, i, e - 1, st.result.vals[k], join), join, orphan);
    }
  }

  /** An extending or skipped line, with `k` current, extends `k` or changes nothing. */
  lemma BodyStep<V>(prev: Cursor<V>, i: nat, m: Mark<V>, base: OrdMap<V>, k: string, a: V,
                    join: (V, string) -> V, orphan: nat -> Error)
    requires Inv(prev) && !m.Open? && !m.Fail?
    requires prev == Cursor(base.Put(k, a), Some(k))
    ensures Step(prev, i, m, join, orphan) == Ok(Cursor(base.Put(k, if m.Add? then join(a, m.text) else a), Some(k)))
  {
    if m.Add? {
      assert prev.result.vals[k := join(prev.result.vals[k], m.text)] == base.vals[k := join(a, m.text)];
    }
  }

  /** A key the cursor has left keeps its value while no line opens it again. */
  lemma {:induction false} Untouched<V>(start: Cursor<V>, ms: seq<Mark<V>>, i: nat, e: nat, k: string,
                                        join: (V, string) -> V, orphan: nat -> Error)
    requires Inv(start)
    requires i <= e <= |ms|
    requires UpTo(start, ms, i, join, orphan).Ok?
    requires k in UpTo(start, ms, i, join, orphan).value.result.vals
    requires UpTo(start, ms, i, join, orphan).value.current != Some(k)
    requires forall j :: i <= j < e ==> !(ms[j].Open? && ms[j].name == k)
    requires UpTo(start, ms, e, join, orphan).Ok?
    ensures k in UpTo(start, ms, e, join, orphan).value.result.vals
    ensures UpTo(start, ms, e, join, orphan).value.result.vals[k] == UpTo(start, ms, i, join, orphan).value.result.vals[k]
    ensures UpTo(start, ms, e, join, orphan).value.current != Some(k)
    decreases e - i
  {
    if e > i {
      PrefixOk(start, ms, e - 1, e, join, orphan);
      Untouched(start, ms, i, e - 1, k, join, orphan);
      var prev := UpTo(start, ms, e - 1, join, orphan).value;
      var next := UpTo(start, ms, e, join, orphan).value;
      UpToStep(start, ms, e - 1, join, orphan);
      assert Step(prev, e - 1, ms[e - 1], join, orphan) == Ok(next);
      StepKeeps(prev, e - 1, ms[e - 1], k, join, orphan);
      assert k in next.result.vals && next.current != Some(k);
      assert next.result.vals[k] == prev.result.vals[k] == UpTo(start, ms, i, join, orphan).value.result.vals[k];
    }
  }

  /** One more line is one more step. */
  lemma UpToStep<V>(start: Cursor<V>, ms: seq<Mark<V>>, n: nat, join: (V, string) -> V, orphan: nat -> Error)
    requires Inv(start)
    requires n < |ms|
    requires UpTo(start, ms, n, join, orphan).Ok?
    ensures UpTo(start, ms, n + 1, join, orphan) == Step(UpTo(start, ms, n, join, orphan).value, n, ms[n], join, orphan)
  {
  }

  /** A line that does not open `k` leaves a key other than the current one alone. */
  lemma StepKeeps<V>(prev: Cursor<V>, i: nat, m: Mark<V>, k: string, join: (V, string) -> V, orphan: nat -> Error)
    requires Inv(prev) && k in prev.result.vals && prev.current != Some(k)
    requires !(m.Open? && m.name == k)
    requires Step(prev, i, m, join, orphan).Ok?
    ensures var next := Step(prev, i, m, join, orphan).value;
      k in next.result.vals && next.result.vals[k] == prev.result.vals[k] && next.current != Some(k)
  {
  }

  /** A key ends with the value of its last opening line extended by the lines up to the
      next opening line: reopening a key starts it afresh, and lines under other keys
      never reach it. */
  lemma LastOpening<V>(start: Cursor<V>, ms: seq<Mark<V>>, h: nat, e: nat, join: (V, string) -> V, orphan: nat -> Error)
    requires Inv(start)
    requires h < e <= |ms| && ms[h].Open?
    requires forall j :: h < j < e ==> !ms[j].Open?
    requires e == |ms| || ms[e].Open?
    requires forall j :: h < j < |ms| && ms[j].Open? ==> ms[j].name != ms[h].name
    requires UpTo(start, ms, |ms|, join, orphan).Ok?
    ensures ms[h].name in UpTo(start, ms, |ms|, join, orphan).value.result.vals
    ensures UpTo(start, ms, |ms|, join, orphan).value.result.vals[ms[h].name] == Accum(ms, h + 1, e, ms[h].init, join)
    ensures UpTo(start, ms, |ms|, join, orphan).value.current == Some(ms[h].name) <==> e == |ms|
  {
    var k := ms[h].name;
    LastOpeningBody(start, ms, h, e, join, orphan);
    if e < |ms| {
      LastOpeningAfter(start, ms, h, e, join, orphan);
    }
  }

  /** Up to the next opening line the key opened at `h` is current and accumulates. */
  lemma LastOpeningBody<V>(start: Cursor<V>, ms: seq<Mark<V>>, h: nat, e: nat, join: (V, string) -> V, orphan: nat -> Error)
    requires Inv(start)
    requires h < e <= |ms| && ms[h].Open?
    requires forall j :: h < j < e ==> !ms[j].Open?
    requires UpTo(start, ms, |ms|, join, orphan).Ok?
    ensures UpTo(start, ms, e, join, orphan).Ok?
    ensures var st := UpTo(start, ms, e, join, orphan).value;
      && st.current == Some(ms[h].name)
      && ms[h].name in st.result.vals
      && st.result.vals[ms[h].name] == Accum(ms, h + 1, e, ms[h].init, join)
  {
    var k := ms[h].name;
    PrefixOk(start, ms, h + 1, |ms|, join, orphan);
    PrefixOk(start, ms, e, |ms|, join, orphan);
    OpenStep(start, ms, h, join, orphan);
    NoFail(start, ms, |ms|, join, orphan);
    assert forall j :: h + 1 <= j < e ==> !ms[j].Open? && !ms[j].Fail?;
    Body(start, ms, h + 1, e, k, join, orphan);
  }

  /** After the next opening line, which names another key, the key keeps its value. */
  lemma LastOpeningAfter<V>(start: Cursor<V>, ms: seq<Mark<V>>, h: nat, e: nat, join: (V, string) -> V, orphan: nat -> Error)
    requires Inv(start)
    requires h < e < |ms| && ms[h].Open? && ms[e].Open?
    requires forall j :: h < j < |ms| && ms[j].Open? ==> ms[j].name != ms[h].name
    requires UpTo(start, ms, |ms|, join, orphan).Ok?
    requires UpTo(start, ms, e, join, orphan).Ok?
    requires var st := UpTo(start, ms, e, join, orphan).value;
      ms[h].name in st.result.vals
    ensures var st := UpTo(start, ms, e, join, orphan).value;
      && ms[h].name in UpTo(start, ms, |ms|, join, orphan).value.result.vals
      && UpTo(start, ms, |ms|, join, orphan).value.result.vals[ms[h].name] == st.result.vals[ms[h].name]
      && UpTo(start, ms, |ms|, join, orphan).value.current != Some(ms[h].name)
  {
    var k := ms[h].name;
    PrefixOk(start, ms, e + 1, |ms|, join, orphan);
    OpenStep(start, ms, e, join, orphan);
    assert forall j :: e + 1 <= j < |ms| ==> !(ms[j].Open? && ms[j].name == k);
    Untouched(start, ms, e + 1, |ms|, k, join, orphan);
  }

  /** An opening line at `h` puts its initial value under its name and makes it current,
      leaving every other key as it was. */
  lemma OpenStep<V>(start: Cursor<V>, ms: seq<Mark<V>>, h: nat, join: (V, string) -> V, orphan: nat -> Error)
    requires Inv(start)
    requires h < |ms| && ms[h].Open?
    requires UpTo(start, ms, h + 1, join, orphan).Ok?
    ensures UpTo(start, ms, h, join, orphan).Ok?
    ensures var before := UpTo(start, ms, h, join, orphan).value;
      UpTo(start, ms, h + 1, join, orphan) == Ok(Cursor(before.result.Put(ms[h].name, ms[h].init), Some(ms[h].name)))
  {
    PrefixOk(start, ms, h, h + 1, join, orphan);
  }
}
