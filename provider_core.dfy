/**
 * The storage-provider core: a global registry from provider names to
 * provider classes, lookup and instantiation by name, the response wrapper's
 * header defaults, and the rule by which a copy or a move first tries the
 * provider's own intra-provider operation and otherwise falls back to
 * download, upload (and delete).
 *
 * Coroutines are not modelled as such: each awaited call is one entry of a
 * call log, and what the awaited provider methods answer is a parameter.
 */
module ProviderCore {
  import opened Common

  /** A provider class; Python compares classes by identity. */
  datatype ProviderClass = ProviderClass(qualname: string)

  /** `ValueError` from registration and `NotImplementedError` from lookup. */
  datatype ProviderError = AlreadyRegistered(name: string) | NoProvider(name: string)

  datatype Result<+T> = Success(value: T) | Failure(error: ProviderError)

  /** The contents of the global `PROVIDERS` dictionary. */
  type Registry = map<string, ProviderClass>

  type Kwargs = map<string, string>

  // ---------------------------------------------------------------------
  // Registration
  // ---------------------------------------------------------------------

  /** `register_provider(name)(cls)` as written: the guard raises unless the
      name is already mapped to this very class, so the registry never
      changes. */
  function RegisterAsWritten(m: Registry, name: string, cls: ProviderClass): (out: (Result<ProviderClass>, Registry))
    ensures out.0.Success? <==> name in m && m[name] == cls
    ensures out.0.Success? ==> out.0.value == cls
    ensures out.0.Failure? ==> out.0.error == AlreadyRegistered(name)
    ensures out.1 == m
  {
    if name !in m || m[name] != cls then (Failure(AlreadyRegistered(name)), m)
    else (Success(cls), m[name := cls])
  }

  /** A name already in the registry cannot be taken over by another class;
      any other registration records the class and touches no other entry. */
  function Register(m: Registry, name: string, cls: ProviderClass): (out: (Result<ProviderClass>, Registry))
    ensures out.0.Failure? <==> name in m && m[name] != cls
    ensures out.0.Failure? ==> out.0.error == AlreadyRegistered(name) && out.1 == m
    ensures out.0.Success? ==> out.0.value == cls && name in out.1 && out.1[name] == cls
    ensures out.1.Keys == m.Keys + {name} || out.1 == m
    ensures forall n :: n != name ==> (n in out.1 <==> n in m) && (n in m ==> out.1[n] == m[n])
  {
    if name in m && m[name] != cls then (Failure(AlreadyRegistered(name)), m)
    else (Success(cls), m[name := cls])
  }

  /** The result of each registration in `regs`, applied in order. */
  function ReplayAsWritten(m: Registry, regs: seq<(string, ProviderClass)>): (Registry, seq<Result<ProviderClass>>)
    decreases |regs|
  {
    if regs == [] then (m, [])
    else
      var (r, m') := RegisterAsWritten(m, regs[0].0, regs[0].1);
      var (final, rs) := ReplayAsWritten(m', regs[1..]);
      (final, [r] + rs)
  }

  function Replay(m: Registry, regs: seq<(string, ProviderClass)>): (Registry, seq<Result<ProviderClass>>)
    decreases |regs|
  {
    if regs == [] then (m, [])
    else
      var (r, m') := Register(m, regs[0].0, regs[0].1);
      var (final, rs) := Replay(m', regs[1..]);
      (final, [r] + rs)
  }

  /** As written, starting from the empty registry, no registration in any
      sequence of registrations succeeds and the registry stays empty. */
  lemma {:induction false} AsWrittenNothingEverRegisters(regs: seq<(string, ProviderClass)>)
    ensures ReplayAsWritten(map[], regs).0 == map[]
    ensures |ReplayAsWritten(map[], regs).1| == |regs|
    ensures forall i :: 0 <= i < |regs| ==> ReplayAsWritten(map[], regs).1[i] == Failure(AlreadyRegistered(regs[i].0))
  {
    if regs != [] {
      AsWrittenNothingEverRegisters(regs[1..]);
      var rs := ReplayAsWritten(map[], regs).1;
      assert rs == [Failure(AlreadyRegistered(regs[0].0))] + ReplayAsWritten(map[], regs[1..]).1;
      forall i | 0 <= i < |regs| ensures rs[i] == Failure(AlreadyRegistered(regs[i].0)) {
        if i > 0 { assert regs[i] == regs[1..][i - 1]; }
      }
    }
  }

  predicate DistinctNames(regs: seq<(string, ProviderClass)>) {
    forall i, j :: 0 <= i < j < |regs| ==> regs[i].0 != regs[j].0
  }

  /** With the corrected guard, registering providers under distinct fresh
      names succeeds for every one of them, and each name then maps to its
      class. */
  lemma {:induction false} DistinctRegistrationsAllSucceed(m: Registry, regs: seq<(string, ProviderClass)>)
    requires DistinctNames(regs)
    requires forall i :: 0 <= i < |regs| ==> regs[i].0 !in m
    ensures |Replay(m, regs).1| == |regs|
    ensures forall i :: 0 <= i < |regs| ==> Replay(m, regs).1[i] == Success(regs[i].1)
    ensures forall i :: 0 <= i < |regs| ==> GetProvider(Replay(m, regs).0, regs[i].0) == Success(regs[i].1)
    ensures forall n :: n in m ==> GetProvider(Replay(m, regs).0, n) == Success(m[n])
    decreases |regs|
  {
    if regs != [] {
      var (name, cls) := regs[0];
      var m' := Register(m, name, cls).1;
      var rest := regs[1..];
      assert DistinctNames(rest) by {
        forall i, j | 0 <= i < j < |rest| ensures rest[i].0 != rest[j].0 {
          assert rest[i] == regs[i + 1] && rest[j] == regs[j + 1];
        }
      }
      forall i | 0 <= i < |rest| ensures rest[i].0 !in m' {
        assert rest[i] == regs[i + 1];
      }
      DistinctRegistrationsAllSucceed(m', rest);
      var (final, rs) := Replay(m, regs);
      assert rs == [Success(cls)] + Replay(m', rest).1;
      forall i | 0 <= i < |regs|
        ensures rs[i] == Success(regs[i].1)
        ensures GetProvider(final, regs[i].0) == Success(regs[i].1)
      {
        if i > 0 { assert regs[i] == rest[i - 1]; }
      }
    }
  }

  /** Registering the same class twice under a name is the same as once. */
  lemma RegisterIsIdempotent(m: Registry, name: string, cls: ProviderClass)
    ensures var (r1, m1) := Register(m, name, cls);
            var (r2, m2) := Register(m1, name, cls);
            r1.Success? ==> r2 == r1 && m2 == m1
  {
  }

  /** `get_provider`: the class registered under the name, or
      `NotImplementedError`. */
  function GetProvider(m: Registry, name: string): (r: Result<ProviderClass>)
    ensures r.Success? <==> name in m
    ensures r.Success? ==> r.value == m[name]
    ensures r.Failure? ==> r.error == NoProvider(name)
  {
    if name in m then Success(m[name]) else Failure(NoProvider(name))
  }

  /** A provider instance: its class and the keyword arguments it was built with. */
  datatype Provider = Provider(cls: ProviderClass, kwargs: Kwargs)

  /** `make_provider`: instantiate the registered class, or fail as lookup does. */
  function MakeProvider(m: Registry, name: string, kwargs: Kwargs): (r: Result<Provider>)
    ensures r.Success? <==> name in m
    ensures r.Success? ==> r.value == Provider(m[name], kwargs)
    ensures r.Failure? ==> r.error == NoProvider(name)
  {
    match GetProvider(m, name)
    case Success(cls) => Success(Provider(cls, kwargs))
    case Failure(e) => Failure(e)
  }

  /** With the corrected guard, a provider registered under a free name can
      be made at once. */
  lemma RegisteredProviderCanBeMade(m: Registry, name: string, cls: ProviderClass, kwargs: Kwargs)
    requires name !in m
    ensures Register(m, name, cls).0 == Success(cls)
    ensures MakeProvider(Register(m, name, cls).1, name, kwargs) == Success(Provider(cls, kwargs))
  {
  }

  /** The global registry, which registration updates in place. */
  class Providers {
    var table: Registry

    constructor ()
      ensures table == map[]
    {
      table := map[];
    }

    /** The decorator as written. */
    method RegisterProviderAsWritten(name: string, cls: ProviderClass) returns (r: Result<ProviderClass>)
      modifies this
      ensures (r, table) == RegisterAsWritten(old(table), name, cls)
      ensures table == old(table)
    {
      if name !in table || table[name] != cls {
        return Failure(AlreadyRegistered(name));
      }
      table := table[name := cls];
      r := Success(cls);
    }

    /** The decorator with the corrected guard. */
    method RegisterProvider(name: string, cls: ProviderClass) returns (r: Result<ProviderClass>)
      modifies this
      ensures (r, table) == Register(old(table), name, cls)
    {
      if name in table && table[name] != cls {
        return Failure(AlreadyRegistered(name));
      }
      table := table[name := cls];
      r := Success(cls);
    }
  }

  // ---------------------------------------------------------------------
  // Response wrapper
  // ---------------------------------------------------------------------

  datatype HttpResponse = HttpResponse(content: seq<bv8>, headers: map<string, string>)

  datatype ResponseWrapper = ResponseWrapper(
    response: HttpResponse, content: seq<bv8>, size: Option<string>, contentType: string)

  const DEFAULT_CONTENT_TYPE := "application/octet-stream"

  /** Wraps a response: the size is the Content-Length header if sent, and
      the content type falls back to a generic byte stream. */
  function WrapResponse(response: HttpResponse): (w: ResponseWrapper)
    ensures w.response == response && w.content == response.content
    ensures "Content-Type" !in response.headers ==> w.contentType == DEFAULT_CONTENT_TYPE
    ensures "Content-Type" in response.headers ==> w.contentType == response.headers["Content-Type"]
    ensures w.size.Some? <==> "Content-Length" in response.headers
    ensures w.size.Some? ==> w.size.value == response.headers["Content-Length"]
  {
    var h := response.headers;
    ResponseWrapper(
      response, response.content,
      if "Content-Length" in h then Some(h["Content-Length"]) else None,
      if "Content-Type" in h then h["Content-Type"] else DEFAULT_CONTENT_TYPE)
  }

  // ---------------------------------------------------------------------
  // Copy and move dispatch
  // ---------------------------------------------------------------------

  /** A value a coroutine returns; only its identity matters. */
  datatype Value = PyNone | Obj(id: nat)

  datatype Exception = NotImplementedError | OtherError(kind: string)

  /** How an awaited call ended. */
  datatype Completion = Returned(value: Value) | Raised(exc: Exception)

  /** One awaited provider call. */
  datatype Call =
    | IntraCopy(source: string, dest: string, sourceOptions: Kwargs, destOptions: Kwargs)
    | IntraMove(source: string, dest: string, sourceOptions: Kwargs, destOptions: Kwargs)
    | Download(provider: string, options: Kwargs)
    | Upload(provider: string, obj: Value, options: Kwargs)
    | Delete(provider: string, options: Kwargs)

  /** What the two providers answer during one copy or move. */
  datatype Answers = Answers(
    canIntraCopy: bool, intraCopy: Completion,
    canIntraMove: bool, intraMove: Completion,
    download: Completion, upload: Completion, delete: Completion)

  /** The answers of a provider that keeps `BaseProvider`'s capability
      methods and intra operations. */
  function BaseAnswers(download: Completion, upload: Completion, delete: Completion): (a: Answers)
    ensures !a.canIntraCopy && !a.canIntraMove
  {
    Answers(false, Raised(NotImplementedError), false, Raised(NotImplementedError), download, upload, delete)
  }

  /** The call log the dispatch appends to. */
  class CallLog {
    var calls: seq<Call>

    constructor ()
      ensures calls == []
    {
      calls := [];
    }

    method Record(c: Call)
      modifies this
      ensures calls == old(calls) + [c]
    {
      calls := calls + [c];
    }
  }

  // Each run below takes `prior`, the calls logged before it starts, and
  // gives its outcome with the log it leaves: `prior` followed by its own
  // calls in the order they are awaited.

  /** The download-then-upload fallback of a copy. */
  function FallbackCopy(a: Answers, source: string, dest: string, so: Kwargs, dOpts: Kwargs,
                        prior: seq<Call>): (run: (Completion, seq<Call>))
    ensures |prior| < |run.1| && run.1[..|prior|] == prior && run.1[|prior|] == Download(source, so)
    ensures run.0.Raised? <==> a.download.Raised? || a.upload.Raised?
  {
    match a.download
    case Raised(e) => (Raised(e), prior + [Download(source, so)])
    case Returned(obj) =>
      var calls := prior + [Download(source, so)] + [Upload(dest, obj, dOpts)];
      match a.upload
      case Raised(e) => (Raised(e), calls)
      case Returned(_) => (Returned(PyNone), calls)
  }

  /** `BaseProvider.copy`. */
  function CopyRun(a: Answers, source: string, dest: string, so: Kwargs, dOpts: Kwargs,
                   prior: seq<Call>): (run: (Completion, seq<Call>))
    ensures |prior| < |run.1| && run.1[..|prior|] == prior
    ensures run.1[|prior|].IntraCopy? <==> a.canIntraCopy
  {
    if a.canIntraCopy && a.intraCopy != Raised(NotImplementedError) then
      (a.intraCopy, prior + [IntraCopy(source, dest, so, dOpts)])
    else
      FallbackCopy(a, source, dest, so, dOpts,
                   if a.canIntraCopy then prior + [IntraCopy(source, dest, so, dOpts)] else prior)
  }

  /** `BaseProvider.move`. */
  function MoveRun(a: Answers, source: string, dest: string, so: Kwargs, dOpts: Kwargs,
                   prior: seq<Call>): (run: (Completion, seq<Call>))
    ensures |prior| < |run.1| && run.1[..|prior|] == prior
    ensures run.1[|prior|].IntraMove? <==> a.canIntraMove
  {
    if a.canIntraMove && a.intraMove != Raised(NotImplementedError) then
      (a.intraMove, prior + [IntraMove(source, dest, so, dOpts)])
    else
      AfterCopy(a, source, so,
                CopyRun(a, source, dest, so, dOpts,
                        if a.canIntraMove then prior + [IntraMove(source, dest, so, dOpts)] else prior))
  }

  /** The rest of a fallback move: stop at a failed copy, otherwise delete
      the source. */
  function AfterCopy(a: Answers, source: string, so: Kwargs, copy: (Completion, seq<Call>)): (run: (Completion, seq<Call>))
    ensures |copy.1| <= |run.1| && run.1[..|copy.1|] == copy.1
    ensures |run.1| > |copy.1| <==> copy.0.Returned?
    ensures copy.0.Raised? ==> run == copy
  {
    if copy.0.Raised? then copy
    else (if a.delete.Raised? then a.delete else Returned(PyNone), copy.1 + [Delete(source, so)])
  }

  predicate IsTransfer(c: Call) {
    c.Download? || c.Upload?
  }

  /** A completed intra-provider copy is the whole copy: its result is
      returned and nothing is downloaded or uploaded. */
  lemma CopyIntraPathIsAlone(a: Answers, source: string, dest: string, so: Kwargs, dOpts: Kwargs)
    requires a.canIntraCopy && a.intraCopy.Returned?
    ensures CopyRun(a, source, dest, so, dOpts, []) == (a.intraCopy, [IntraCopy(source, dest, so, dOpts)])
    ensures forall c :: c in CopyRun(a, source, dest, so, dOpts, []).1 ==> !IsTransfer(c)
  {
    assert [] + [IntraCopy(source, dest, so, dOpts)] == [IntraCopy(source, dest, so, dOpts)];
  }

  /** Without a usable intra copy, the copy downloads from the source and
      then, if that succeeded, uploads exactly the downloaded object. */
  lemma CopyFallbackIsDownloadThenUpload(a: Answers, source: string, dest: string, so: Kwargs, dOpts: Kwargs)
    requires !a.canIntraCopy || a.intraCopy == Raised(NotImplementedError)
    ensures var (r, calls) := CopyRun(a, source, dest, so, dOpts, []);
            var attempt := if a.canIntraCopy then [IntraCopy(source, dest, so, dOpts)] else [];
            && (a.download.Returned? ==>
                  calls == attempt + [Download(source, so), Upload(dest, a.download.value, dOpts)]
                  && (r.Returned? <==> a.upload.Returned?))
            && (a.download.Raised? ==> calls == attempt + [Download(source, so)] && r == a.download)
            && (r.Returned? ==> r.value == PyNone)
  {
  }

  /** Any error but `NotImplementedError` from the intra copy ends the copy. */
  lemma CopyIntraErrorPropagates(a: Answers, source: string, dest: string, so: Kwargs, dOpts: Kwargs, e: Exception)
    requires a.canIntraCopy && a.intraCopy == Raised(e) && e != NotImplementedError
    ensures CopyRun(a, source, dest, so, dOpts, []) == (Raised(e), [IntraCopy(source, dest, so, dOpts)])
  {
    assert [] + [IntraCopy(source, dest, so, dOpts)] == [IntraCopy(source, dest, so, dOpts)];
  }

  /** A completed intra-provider move is the whole move. */
  lemma MoveIntraPathIsAlone(a: Answers, source: string, dest: string, so: Kwargs, dOpts: Kwargs)
    requires a.canIntraMove && a.intraMove.Returned?
    ensures MoveRun(a, source, dest, so, dOpts, []) == (a.intraMove, [IntraMove(source, dest, so, dOpts)])
  {
    assert [] + [IntraMove(source, dest, so, dOpts)] == [IntraMove(source, dest, so, dOpts)];
  }

  /** A copy keeps the log it started from and never deletes anything. */
  lemma CopyNeverDeletes(a: Answers, source: string, dest: string, so: Kwargs, dOpts: Kwargs, prior: seq<Call>)
    ensures var calls := CopyRun(a, source, dest, so, dOpts, prior).1;
            |prior| <= |calls| && calls[..|prior|] == prior
            && forall i :: |prior| <= i < |calls| ==> !calls[i].Delete?
  {
  }

  /** In a move, the source is deleted exactly when the move fell back to
      copying and that copy completed; the delete is then the last call,
      after all of the copy's calls, and otherwise nothing is deleted. */
  lemma MoveDeletesOnlyAfterCompletedCopy(a: Answers, source: string, dest: string, so: Kwargs, dOpts: Kwargs)
    ensures var calls := MoveRun(a, source, dest, so, dOpts, []).1;
            var fellBack := !a.canIntraMove || a.intraMove == Raised(NotImplementedError);
            var attempt := if a.canIntraMove then [IntraMove(source, dest, so, dOpts)] else [];
            var copy := CopyRun(a, source, dest, so, dOpts, attempt);
            && (fellBack && copy.0.Returned? ==> calls == copy.1 + [Delete(source, so)])
            && (!(fellBack && copy.0.Returned?) ==> forall c :: c in calls ==> !c.Delete?)
  {
    var attempt := if a.canIntraMove then [IntraMove(source, dest, so, dOpts)] else [];
    assert [] + [IntraMove(source, dest, so, dOpts)] == [IntraMove(source, dest, so, dOpts)];
    CopyNeverDeletes(a, source, dest, so, dOpts, attempt);
    if !a.canIntraMove || a.intraMove == Raised(NotImplementedError) {
      var copy := CopyRun(a, source, dest, so, dOpts, attempt);
      assert MoveRun(a, source, dest, so, dOpts, []) == AfterCopy(a, source, so, copy);
    }
  }

  /** A provider with the base class's defaults always copies by download
      and upload, and moves by that copy followed by a delete. */
  lemma BaseProviderAlwaysFallsBack(download: Completion, upload: Completion, delete: Completion,
                                    source: string, dest: string, so: Kwargs, dOpts: Kwargs)
    ensures var a := BaseAnswers(download, upload, delete);
            && CopyRun(a, source, dest, so, dOpts, []) == FallbackCopy(a, source, dest, so, dOpts, [])
            && (download.Returned? && upload.Returned? ==>
                  MoveRun(a, source, dest, so, dOpts, []).1
                    == [Download(source, so), Upload(dest, download.value, dOpts), Delete(source, so)])
  {
  }

  /** `copy`, step by step, appending each awaited call to the log. */
  method Copy(log: CallLog, a: Answers, source: string, dest: string, so: Kwargs, dOpts: Kwargs)
    returns (r: Completion)
    modifies log
    ensures (r, log.calls) == CopyRun(a, source, dest, so, dOpts, old(log.calls))
  {
    if a.canIntraCopy {
      log.Record(IntraCopy(source, dest, so, dOpts));
      if a.intraCopy != Raised(NotImplementedError) {
        return a.intraCopy;
      }
    }
    log.Record(Download(source, so));
    match a.download
    case Raised(e) =>
      r := Raised(e);
    case Returned(obj) =>
      log.Record(Upload(dest, obj, dOpts));
      r := if a.upload.Raised? then a.upload else Returned(PyNone);
  }

  /** `move`, step by step: the intra move, or a copy followed by a delete. */
  method Move(log: CallLog, a: Answers, source: string, dest: string, so: Kwargs, dOpts: Kwargs)
    returns (r: Completion)
    modifies log
    ensures (r, log.calls) == MoveRun(a, source, dest, so, dOpts, old(log.calls))
  {
    if a.canIntraMove {
      log.Record(IntraMove(source, dest, so, dOpts));
      if a.intraMove != Raised(NotImplementedError) {
        return a.intraMove;
      }
    }
    r := Copy(log, a, source, dest, so, dOpts);
    if r.Raised? {
      return;
    }
    log.Record(Delete(source, so));
    r := if a.delete.Raised? then a.delete else Returned(PyNone);
  }
}
