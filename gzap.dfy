/**
 * The access-log and panic-recovery wrappers.
 *
 * `Logger` writes one info record per request after the wrapped handler
 * returns; `Recovery` turns a panic of the wrapped handler into an error
 * record and a 500 status. Both are configured with the same functional
 * options and both step aside entirely when their disable flag is set at the
 * moment they wrap a handler.
 *
 * The clock, time formatting, client-address extraction, request dumping and
 * the stack trace are inputs (`Env`); a handler's run is described by an
 * `Effect` value: the status it committed, the request object as it was left,
 * whether it returned or panicked, and the records logged so far.
 */
module Gzap {
  import opened Text
  import opened Http

  // ---------------------------------------------------------------------------
  // Panic values and the broken-pipe classification

  /** A panic value, as far as the classification can tell them apart. */
  datatype Fault =
    | OpError(op: string, err: Fault)           // *net.OpError, wrapping another error
    | SyscallError(syscall: string, text: string) // *os.SyscallError: failing call and its error text
    | Other(message: string)                     // any other panic value

  /** The text of an *os.SyscallError: the call, a colon and the error. */
  function SyscallText(syscall: string, err: string): string
  {
    syscall + ": " + err
  }

  /**
   * A network operation error directly wrapping a system-call error whose
   * lowercased text mentions a broken pipe or a reset connection.
   */
  predicate IsBrokenPipe(f: Fault)
  {
    && f.OpError?
    && f.err.SyscallError?
    && var lowered := ToLower(SyscallText(f.err.syscall, f.err.text));
    Contains(lowered, "broken pipe") || Contains(lowered, "connection reset by peer")
  }

  /**
   * Only a system-call error sitting directly inside the operation error is
   * examined: one wrapped a level deeper, or not wrapped at all, is never a
   * broken pipe, whatever its text says.
   */
  lemma NotBrokenPipeUnlessDirect(op: string, op2: string, syscall: string, err: string)
    ensures !IsBrokenPipe(OpError(op, OpError(op2, SyscallError(syscall, err))))
    ensures !IsBrokenPipe(SyscallError(syscall, err))
    ensures !IsBrokenPipe(OpError(op, Other(err)))
  {
  }

  /**
   * The examined text is the whole error text of the system call, its name
   * included: a call whose name holds the phrase is recognised whatever its
   * error says.
   */
  lemma {:induction false} BrokenPipeInSyscallName(op: string, syscall: string, err: string)
    requires Contains(ToLower(syscall), "broken pipe")
    ensures IsBrokenPipe(OpError(op, SyscallError(syscall, err)))
  {
    var i: nat :| i <= |ToLower(syscall)| && OccursAt(ToLower(syscall), "broken pipe", i);
    ToLowerConcat(syscall, ": " + err);
    assert syscall + ": " + err == syscall + (": " + err);
    var lowered := ToLower(SyscallText(syscall, err));
    assert lowered[i..i + |"broken pipe"|] == ToLower(syscall)[i..i + |"broken pipe"|];
    assert OccursAt(lowered, "broken pipe", i);
  }

  /**
   * The phrase may appear in any letter case in the error text of the system
   * call: "write: Broken Pipe" is recognised like "write: broken pipe".
   */
  lemma {:induction false} BrokenPipeAnyCase(op: string, syscall: string, err: string, phrase: string)
    requires phrase == "broken pipe" || phrase == "connection reset by peer"
    requires Contains(ToLower(err), phrase)
    ensures IsBrokenPipe(OpError(op, SyscallError(syscall, err)))
  {
    ToLowerConcat(syscall + ": ", err);
    ContainsSuffix(ToLower(syscall + ": "), ToLower(err), phrase);
  }

  /** Already lowercase text containing the phrase is recognised. */
  lemma BrokenPipeLowercase(op: string, syscall: string, err: string)
    requires Contains(err, "broken pipe")
    ensures IsBrokenPipe(OpError(op, SyscallError(syscall, err)))
  {
    ContainsLowered(err, "broken pipe");
    BrokenPipeAnyCase(op, syscall, err, "broken pipe");
  }

  // ---------------------------------------------------------------------------
  // Log records

  datatype FieldValue =
    | Int(i: int)
    | Str(s: string)
    | Duration(nanos: int)
    | Any(fault: Fault)
    | Bytes(b: string)

  datatype Field = Field(key: string, value: FieldValue)

  /** A configured custom field: computed from the request when the record is written. */
  type CustomField = Request -> Field

  datatype Level = Info | Error

  datatype Record = Record(level: Level, message: string, fields: seq<Field>)

  function Keys(fields: seq<Field>): (ks: seq<string>)
    ensures |ks| == |fields|
    ensures forall i :: 0 <= i < |fields| ==> ks[i] == fields[i].key
  {
    seq(|fields|, i requires 0 <= i < |fields| => fields[i].key)
  }

  /** The custom fields evaluated, in their configured order, on request `r`. */
  function CustomValues(custom: seq<CustomField>, r: Request): (fs: seq<Field>)
    ensures |fs| == |custom|
    ensures forall i :: 0 <= i < |custom| ==> fs[i] == custom[i](r)
  {
    seq(|custom|, i requires 0 <= i < |custom| => custom[i](r))
  }

  // ---------------------------------------------------------------------------
  // Configuration

  const Rfc3339Nano := "2006-01-02T15:04:05.999999999Z07:00"
  const RecoveryMessage := "[Recovery from panic]"
  const StatusInternalServerError := 500

  /** An atomic.Bool shared between the configuration and whoever flips it. */
  class Flag {
    var value: bool

    constructor (v: bool)
      ensures value == v
    {
      value := v;
    }
  }

  datatype Option =
    | WithTimeFormat(layout: string)
    | WithUtc(utc: bool)
    | WithCustomFields(fields: seq<CustomField>)
    | WithDisable(flag: Flag)

  datatype Settings = Settings(timeFormat: string, utc: bool, disable: Flag, customFields: seq<CustomField>)

  function ApplyOption(s: Settings, o: Option): Settings
  {
    match o
    case WithTimeFormat(layout) => s.(timeFormat := layout)
    case WithUtc(b) => s.(utc := b)
    case WithCustomFields(fs) => s.(customFields := fs)
    case WithDisable(flag) => s.(disable := flag)
  }

  /** The settings after applying `opts` in order. */
  function Applied(s: Settings, opts: seq<Option>): Settings
  {
    if opts == [] then s else ApplyOption(Applied(s, opts[..|opts| - 1]), opts[|opts| - 1])
  }

  /**
   * Each setting takes the value of the last option that sets it and keeps
   * its starting value when no option does; the four lemmas below say so for
   * each setting in turn.
   */
  lemma {:induction false} TimeFormatLastWins(s: Settings, opts: seq<Option>)
    ensures (forall k :: 0 <= k < |opts| ==> !opts[k].WithTimeFormat?) ==> Applied(s, opts).timeFormat == s.timeFormat
    ensures forall k ::
      (0 <= k < |opts| && opts[k].WithTimeFormat? && forall j :: k < j < |opts| ==> !opts[j].WithTimeFormat?)
      ==> Applied(s, opts).timeFormat == opts[k].layout
    decreases |opts|
  {
    if opts != [] {
      var init := opts[..|opts| - 1];
      TimeFormatLastWins(s, init);
      assert forall k :: 0 <= k < |init| ==> init[k] == opts[k];
    }
  }

  lemma {:induction false} UtcLastWins(s: Settings, opts: seq<Option>)
    ensures (forall k :: 0 <= k < |opts| ==> !opts[k].WithUtc?) ==> Applied(s, opts).utc == s.utc
    ensures forall k ::
      (0 <= k < |opts| && opts[k].WithUtc? && forall j :: k < j < |opts| ==> !opts[j].WithUtc?)
      ==> Applied(s, opts).utc == opts[k].utc
    decreases |opts|
  {
    if opts != [] {
      var init := opts[..|opts| - 1];
      UtcLastWins(s, init);
      assert forall k :: 0 <= k < |init| ==> init[k] == opts[k];
    }
  }

  /** A later WithCustomFields replaces the whole list rather than extending it. */
  lemma {:induction false} CustomFieldsLastWins(s: Settings, opts: seq<Option>)
    ensures (forall k :: 0 <= k < |opts| ==> !opts[k].WithCustomFields?) ==> Applied(s, opts).customFields == s.customFields
    ensures forall k ::
      (0 <= k < |opts| && opts[k].WithCustomFields? && forall j :: k < j < |opts| ==> !opts[j].WithCustomFields?)
      ==> Applied(s, opts).customFields == opts[k].fields
    decreases |opts|
  {
    if opts != [] {
      var init := opts[..|opts| - 1];
      CustomFieldsLastWins(s, init);
      assert forall k :: 0 <= k < |init| ==> init[k] == opts[k];
    }
  }

  lemma {:induction false} DisableLastWins(s: Settings, opts: seq<Option>)
    ensures (forall k :: 0 <= k < |opts| ==> !opts[k].WithDisable?) ==> Applied(s, opts).disable == s.disable
    ensures forall k ::
      (0 <= k < |opts| && opts[k].WithDisable? && forall j :: k < j < |opts| ==> !opts[j].WithDisable?)
      ==> Applied(s, opts).disable == opts[k].flag
    decreases |opts|
  {
    if opts != [] {
      var init := opts[..|opts| - 1];
      DisableLastWins(s, init);
      assert forall k :: 0 <= k < |init| ==> init[k] == opts[k];
    }
  }

  // ---------------------------------------------------------------------------
  // Handler chains and their effects

  /** What the surrounding world supplies to one request. */
  datatype Env = Env(
    start: int,                              // clock reading before the wrapped handler runs
    end: int,                                // clock reading after it returns
    now: int,                                // clock reading when a panic is recovered
    format: (int, string, bool) -> string,   // time formatting: instant, layout, in UTC
    clientIp: Request -> string,
    dump: Request -> string,                 // the request dump without its body
    stack: string)                           // the stack trace at the recovery point

  datatype Exit = Returned | Panicked(fault: Fault)

  /**
   * The outcome of running a handler: the status committed through the
   * writer (0 when none), the request object as the handler left it, how the
   * handler ended, and the records logged.
   */
  datatype Effect = Effect(status: int, after: Request, exit: Exit, log: seq<Record>)

  /** A chain of wrappers around the application handler `Next`. */
  datatype Handler =
    | Next
    | LoggerHandler(settings: Settings, next: Handler)
    | RecoveryHandler(settings: Settings, stack: bool, next: Handler)

  /**
   * The access-log fields: status, method, path, query, ip, user-agent, time
   * and latency, then the custom fields. Path and query are those captured
   * before the handler ran; everything else is read from the request as the
   * handler left it.
   */
  function AccessFields(s: Settings, before: Request, e: Effect, env: Env): (fields: seq<Field>)
    ensures |fields| == 8 + |s.customFields|
    ensures Keys(fields)[..8] == ["status", "method", "path", "query", "ip", "user-agent", "time", "latency"]
    ensures fields[0].value == Int(e.status)
    ensures fields[1].value == Str(e.after.verb)
    ensures fields[2].value == Str(before.path) && fields[3].value == Str(before.rawQuery)
    ensures fields[4].value == Str(env.clientIp(e.after)) && fields[5].value == Str(UserAgent(e.after))
    ensures fields[6].value == Str(env.format(env.end, s.timeFormat, s.utc))
    ensures fields[7].value == Duration(env.end - env.start)
    ensures fields[8..] == CustomValues(s.customFields, e.after)
  {
    [ Field("status", Int(e.status)),
      Field("method", Str(e.after.verb)),
      Field("path", Str(before.path)),
      Field("query", Str(before.rawQuery)),
      Field("ip", Str(env.clientIp(e.after))),
      Field("user-agent", Str(UserAgent(e.after))),
      Field("time", Str(env.format(env.end, s.timeFormat, s.utc))),
      Field("latency", Duration(env.end - env.start)) ]
    + CustomValues(s.customFields, e.after)
  }

  /** The optional trailing stack field. */
  function StackField(stack: bool, env: Env): seq<Field>
  {
    if stack then [Field("stack", Bytes(env.stack))] else []
  }

  /**
   * The error record for a recovered panic. A broken connection gets a reduced
   * record under the request path with only the error and the request dump;
   * any other panic gets time, error, request, the custom fields and, when
   * enabled, the stack last.
   */
  function RecoveryRecord(s: Settings, stack: bool, r: Request, f: Fault, env: Env): (rec: Record)
    ensures rec.level == Error
    ensures IsBrokenPipe(f) ==>
      && rec.message == r.path
      && rec.fields == [Field("error", Any(f)), Field("request", Bytes(env.dump(r)))]
    ensures !IsBrokenPipe(f) ==>
      && rec.message == RecoveryMessage
      && |rec.fields| == 3 + |s.customFields| + (if stack then 1 else 0)
      && Keys(rec.fields)[..3] == ["time", "error", "request"]
      && rec.fields[0].value == Str(env.format(env.now, s.timeFormat, s.utc))
      && rec.fields[1].value == Any(f)
      && rec.fields[2].value == Bytes(env.dump(r))
      && rec.fields[3..3 + |s.customFields|] == CustomValues(s.customFields, r)
      && rec.fields[3 + |s.customFields|..] == (if stack then [Field("stack", Bytes(env.stack))] else [])
  {
    var request := Field("request", Bytes(env.dump(r)));
    if IsBrokenPipe(f) then
      Record(Error, r.path, [Field("error", Any(f)), request])
    else
      var head := [Field("time", Str(env.format(env.now, s.timeFormat, s.utc))), Field("error", Any(f)), request];
      var custom := CustomValues(s.customFields, r);
      assert (head + custom + StackField(stack, env))[3..3 + |custom|] == custom;
      assert (head + custom + StackField(stack, env))[3 + |custom|..] == StackField(stack, env);
      Record(Error, RecoveryMessage, head + custom + StackField(stack, env))
  }

  /**
   * Runs request `r` through chain `h`, where `inner` is what the
   * application handler does. A Logger logs after a normal return and lets a
   * panic pass unlogged; a Recovery passes a normal return through untouched
   * and turns a panic into its error record and a 500, which the writer keeps
   * only when no status was committed before.
   *
   * Over the whole chain: it ends in a panic exactly when the application
   * panicked and no Recovery is present, passing the panic value on
   * unchanged; the request as left behind is the application's; and the
   * status is the application's, except after a caught panic, when it is 500
   * unless a status was committed before.
   */
  function Serve(h: Handler, r: Request, inner: Effect, env: Env): (e: Effect)
    ensures e.exit.Panicked? <==> inner.exit.Panicked? && !HasRecovery(h)
    ensures e.exit.Panicked? ==> e.exit == inner.exit
    ensures e.after == inner.after
    ensures e.status == if inner.exit.Panicked? && HasRecovery(h) then WriteStatus(inner.status, StatusInternalServerError) else inner.status
  {
    match h
    case Next => inner
    case LoggerHandler(s, next) =>
      var e := Serve(next, r, inner, env);
      if e.exit.Panicked? then e
      else e.(log := e.log + [Record(Info, r.path, AccessFields(s, r, e, env))])
    case RecoveryHandler(s, stack, next) =>
      var e := Serve(next, r, inner, env);
      match e.exit
      case Returned => e
      case Panicked(f) =>
        Effect(WriteStatus(e.status, StatusInternalServerError), e.after, Returned,
               e.log + [RecoveryRecord(s, stack, e.after, f, env)])
  }

  // ---------------------------------------------------------------------------
  // Properties of whole chains

  predicate HasRecovery(h: Handler)
  {
    match h
    case Next => false
    case LoggerHandler(_, next) => HasRecovery(next)
    case RecoveryHandler(_, _, _) => true
  }

  function Loggers(h: Handler): nat
  {
    match h
    case Next => 0
    case LoggerHandler(_, next) => 1 + Loggers(next)
    case RecoveryHandler(_, _, next) => Loggers(next)
  }

  function CountLevel(log: seq<Record>, level: Level): (n: nat)
    ensures n <= |log|
  {
    if log == [] then 0
    else CountLevel(log[..|log| - 1], level) + (if log[|log| - 1].level == level then 1 else 0)
  }

  lemma {:induction false} CountLevelAppend(log: seq<Record>, rec: Record, level: Level)
    ensures CountLevel(log + [rec], level) == CountLevel(log, level) + (if rec.level == level then 1 else 0)
  {
    assert (log + [rec])[..|log|] == log;
  }

  /**
   * The chain only appends to the application's log. Exactly one error record
   * is added when the application panicked and some Recovery caught it, and
   * none otherwise. When the application returned normally every Logger adds
   * one info record; when it panicked and nothing caught it, nobody logs.
   */
  lemma {:induction false} ServeLog(h: Handler, r: Request, inner: Effect, env: Env)
    ensures var e := Serve(h, r, inner, env);
      && |inner.log| <= |e.log| && e.log[..|inner.log|] == inner.log
      && CountLevel(e.log, Error) == CountLevel(inner.log, Error) + (if inner.exit.Panicked? && HasRecovery(h) then 1 else 0)
      && (inner.exit.Returned? ==> CountLevel(e.log, Info) == CountLevel(inner.log, Info) + Loggers(h))
      && (inner.exit.Panicked? && !HasRecovery(h) ==> e.log == inner.log)
  {
    match h
    case Next =>
    case LoggerHandler(s, next) =>
      ServeLog(next, r, inner, env);
      var e := Serve(next, r, inner, env);
      if !e.exit.Panicked? {
        var rec := Record(Info, r.path, AccessFields(s, r, e, env));
        CountLevelAppend(e.log, rec, Error);
        CountLevelAppend(e.log, rec, Info);
        assert (e.log + [rec])[..|inner.log|] == e.log[..|inner.log|];
      }
    case RecoveryHandler(s, stack, next) =>
      ServeLog(next, r, inner, env);
      var e := Serve(next, r, inner, env);
      if e.exit.Panicked? {
        var rec := RecoveryRecord(s, stack, e.after, e.exit.fault, env);
        CountLevelAppend(e.log, rec, Error);
        assert (e.log + [rec])[..|inner.log|] == e.log[..|inner.log|];
      }
  }

  /**
   * Recovery registered outside Logger: a panic yields the error record
   * alone, since the Logger never sees a normal return.
   */
  lemma RecoveryOutsideLogger(s: Settings, stack: bool, t: Settings, r: Request, inner: Effect, env: Env)
    requires inner.exit.Panicked?
    ensures Serve(RecoveryHandler(s, stack, LoggerHandler(t, Next)), r, inner, env)
      == Effect(WriteStatus(inner.status, StatusInternalServerError), inner.after, Returned,
                inner.log + [RecoveryRecord(s, stack, inner.after, inner.exit.fault, env)])
  {
    assert Serve(LoggerHandler(t, Next), r, inner, env) == inner;
  }

  /**
   * Logger registered outside Recovery: a panic yields the error record
   * followed by an info record whose status field shows the 500 (or the
   * status committed before the panic).
   */
  lemma LoggerOutsideRecovery(t: Settings, s: Settings, stack: bool, r: Request, inner: Effect, env: Env)
    requires inner.exit.Panicked?
    ensures var e := Serve(LoggerHandler(t, RecoveryHandler(s, stack, Next)), r, inner, env);
      && e.exit == Returned
      && |e.log| == |inner.log| + 2
      && e.log[|inner.log|] == RecoveryRecord(s, stack, inner.after, inner.exit.fault, env)
      && e.log[|inner.log| + 1].level == Info
      && e.log[|inner.log| + 1].fields[0] == Field("status", Int(WriteStatus(inner.status, StatusInternalServerError)))
  {
    assert Serve(Next, r, inner, env) == inner;
    assert inner.exit == Panicked(inner.exit.fault);
    var caught := Serve(RecoveryHandler(s, stack, Next), r, inner, env);
    var rec := RecoveryRecord(s, stack, inner.after, inner.exit.fault, env);
    assert caught == Effect(WriteStatus(inner.status, StatusInternalServerError), inner.after, Returned, inner.log + [rec]);
    var access := Record(Info, r.path, AccessFields(t, r, caught, env));
    assert Serve(LoggerHandler(t, RecoveryHandler(s, stack, Next)), r, inner, env) == caught.(log := inner.log + [rec] + [access]);
  }

  // ---------------------------------------------------------------------------
  // The middleware constructors

  /** The configuration shared by Logger and Recovery. */
  class Config {
    var timeFormat: string
    var utc: bool
    var disable: Flag
    var customFields: seq<CustomField>

    function Current(): Settings
      reads this
    {
      Settings(timeFormat, utc, disable, customFields)
    }

    /**
     * The defaults (RFC 3339 with nanoseconds, local time, a fresh unset
     * disable flag, no custom fields), then every option in argument order.
     */
    constructor (opts: seq<Option>)
      ensures exists d: Flag :: fresh(d) && !d.value && Current() == Applied(Settings(Rfc3339Nano, false, d, []), opts)
    {
      var d := new Flag(false);
      timeFormat, utc, disable, customFields := Rfc3339Nano, false, d, [];
      new;
      Apply(opts);
    }

    method Apply(opts: seq<Option>)
      modifies this
      ensures Current() == Applied(old(Current()), opts)
    {
      var i := 0;
      while i < |opts|
        invariant 0 <= i <= |opts|
        invariant Current() == Applied(old(Current()), opts[..i])
        decreases |opts| - i
      {
        assert opts[..i + 1][..i] == opts[..i];
        match opts[i] {
          case WithTimeFormat(layout) => timeFormat := layout;
          case WithUtc(b) => utc := b;
          case WithCustomFields(fs) => customFields := fs;
          case WithDisable(flag) => disable := flag;
        }
        i := i + 1;
      }
      assert opts[..|opts|] == opts;
    }

    /** Logger applied to `next`: `next` itself when disabled at this moment. */
    method WrapLogger(next: Handler) returns (h: Handler)
      ensures disable.value ==> h == next
      ensures !disable.value ==> h == LoggerHandler(Current(), next)
    {
      if disable.value {
        h := next;
      } else {
        h := LoggerHandler(Current(), next);
      }
    }

    /** Recovery applied to `next`: `next` itself when disabled at this moment. */
    method WrapRecovery(stack: bool, next: Handler) returns (h: Handler)
      ensures disable.value ==> h == next
      ensures !disable.value ==> h == RecoveryHandler(Current(), stack, next)
    {
      if disable.value {
        h := next;
      } else {
        h := RecoveryHandler(Current(), stack, next);
      }
    }
  }

  // ---------------------------------------------------------------------------
  // Building the field lists step by step

  /** The access-log fields, appending the custom fields one at a time. */
  method BuildAccessFields(s: Settings, before: Request, e: Effect, env: Env) returns (fields: seq<Field>)
    ensures fields == AccessFields(s, before, e, env)
  {
    var head := [
      Field("status", Int(e.status)),
      Field("method", Str(e.after.verb)),
      Field("path", Str(before.path)),
      Field("query", Str(before.rawQuery)),
      Field("ip", Str(env.clientIp(e.after))),
      Field("user-agent", Str(UserAgent(e.after))),
      Field("time", Str(env.format(env.end, s.timeFormat, s.utc))),
      Field("latency", Duration(env.end - env.start))];
    var custom := CustomFieldsLoop(s.customFields, e.after);
    fields := head + custom;
  }

  /** Evaluates the custom fields on `r` one at a time, in order. */
  method CustomFieldsLoop(custom: seq<CustomField>, r: Request) returns (fields: seq<Field>)
    ensures fields == CustomValues(custom, r)
  {
    fields := [];
    var i := 0;
    while i < |custom|
      invariant 0 <= i <= |custom|
      invariant fields == CustomValues(custom[..i], r)
    {
      fields := fields + [custom[i](r)];
      i := i + 1;
    }
    assert custom[..i] == custom;
  }

  /** The recovery record, appending custom fields and then the stack. */
  method BuildRecoveryRecord(s: Settings, stack: bool, r: Request, f: Fault, env: Env) returns (rec: Record)
    ensures rec == RecoveryRecord(s, stack, r, f, env)
  {
    var request := Field("request", Bytes(env.dump(r)));
    if IsBrokenPipe(f) {
      return Record(Error, r.path, [Field("error", Any(f)), request]);
    }
    var head := [Field("time", Str(env.format(env.now, s.timeFormat, s.utc))), Field("error", Any(f)), request];
    var custom := CustomFieldsLoop(s.customFields, r);
    var fields := head + custom;
    if stack {
      fields := fields + [Field("stack", Bytes(env.stack))];
    }
    rec := Record(Error, RecoveryMessage, fields);
  }
}
