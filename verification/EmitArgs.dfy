/**
 The arguments of Emit: an event or its name, then payloads and options in any order.  The payloads are
 moved to the front of the caller's own argument slice, in place.
 */
module EmitArgs {
  import opened Options

  /** A callback is a number; `WithAck(None)` is a nil callback. */
  datatype EmitOption = WithAck(callback: Option<nat>) | WithTimeout(timeout: int, onTimeout: Option<nat>)

  datatype Settings = Settings(ackCallback: Option<nat>, timeout: Option<int>, timeoutCallback: Option<nat>)

  const DEFAULTS := Settings(None, None, None)

  function Apply(s: Settings, o: EmitOption): Settings {
    match o
    case WithAck(callback) => s.(ackCallback := callback)
    case WithTimeout(timeout, onTimeout) => s.(timeout := Some(timeout), timeoutCallback := onTimeout)
  }

  /** An argument; a nil option is still an option, and calling it panics. */
  datatype Arg<V> = AnOption(option: EmitOption) | NilOption | APayload(payload: V)

  /** The arguments that are not options, in order. */
  function Payloads<V>(args: seq<Arg<V>>): (ps: seq<Arg<V>>)
    ensures |ps| <= |args|
    ensures forall i :: 0 <= i < |ps| ==> ps[i].APayload?
  {
    if args == [] then []
    else
      var init := Payloads(args[..|args| - 1]);
      var last := args[|args| - 1];
      if last.APayload? then init + [last] else init
  }

  /** All options of `args`, applied in order. */
  function Configured<V>(args: seq<Arg<V>>): Settings {
    if args == [] then DEFAULTS
    else
      var init := Configured(args[..|args| - 1]);
      var last := args[|args| - 1];
      if last.AnOption? then Apply(init, last.option) else init
  }

  ghost predicate OnlyOptions<V>(args: seq<Arg<V>>) {
    forall i :: 0 <= i < |args| ==> !args[i].APayload?
  }

  /** Every payload argument is kept, once, in its place among the others. */
  lemma {:induction false} PayloadsOfConcat<V>(a: seq<Arg<V>>, b: seq<Arg<V>>)
    ensures Payloads(a + b) == Payloads(a) + Payloads(b)
  {
    if b == [] {
      assert a + b == a;
    } else {
      var n := |b| - 1;
      assert (a + b)[..|a + b| - 1] == a + b[..n];
      PayloadsOfConcat(a, b[..n]);
    }
  }

  /** What one argument contributes; with the law above, this says which arguments the payloads are. */
  lemma PayloadsOfOne<V>(arg: Arg<V>)
    ensures Payloads([arg]) == match arg case APayload(_) => [arg] case _ => []
  {
    assert [arg][..0] == [];
  }

  lemma {:induction false} NoPayloadsIff<V>(args: seq<Arg<V>>)
    ensures Payloads(args) == [] <==> OnlyOptions(args)
  {
    if args != [] {
      NoPayloadsIff(args[..|args| - 1]);
      if Payloads(args) == [] {
        assert OnlyOptions(args[..|args| - 1]);
        forall i | 0 <= i < |args|
          ensures !args[i].APayload?
        {
          if i < |args| - 1 {
            assert args[i] == args[..|args| - 1][i];
          }
        }
      }
    }
  }

  /** The last WithAck decides the ack callback, and the last WithTimeout the timeout and its callback. */
  lemma {:induction false} LastOptionWins<V>(args: seq<Arg<V>>, k: nat)
    requires k < |args| && args[k].AnOption?
    ensures
      args[k].option.WithAck? && (forall i :: k < i < |args| && args[i].AnOption? ==> !args[i].option.WithAck?) ==>
        Configured(args).ackCallback == args[k].option.callback
    ensures
      args[k].option.WithTimeout?
      && (forall i :: k < i < |args| && args[i].AnOption? ==> !args[i].option.WithTimeout?) ==>
        && Configured(args).timeout == Some(args[k].option.timeout)
        && Configured(args).timeoutCallback == args[k].option.onTimeout
  {
    if k < |args| - 1 {
      var init := args[..|args| - 1];
      LastOptionWins(init, k);
      assert forall i :: k < i < |init| ==> init[i] == args[i];
    }
  }

  /** Without an option of its kind a setting stays nil. */
  lemma {:induction false} NoOptionNoSetting<V>(args: seq<Arg<V>>)
    ensures (forall i :: 0 <= i < |args| && args[i].AnOption? ==> !args[i].option.WithAck?) ==>
              Configured(args).ackCallback.None?
    ensures (forall i :: 0 <= i < |args| && args[i].AnOption? ==> !args[i].option.WithTimeout?) ==>
              Configured(args).timeout.None? && Configured(args).timeoutCallback.None?
  {
    if args != [] {
      var init := args[..|args| - 1];
      NoOptionNoSetting(init);
      assert forall i :: 0 <= i < |init| ==> init[i] == args[i];
    }
  }

  /** An argument at which the loop over the arguments ends early. */
  predicate Stops<V>(arg: Arg<V>, isEventDefined: bool) {
    arg.NilOption? || (isEventDefined && arg.APayload?)
  }

  /** Where that loop ends. */
  function FirstStop<V>(args: seq<Arg<V>>, isEventDefined: bool): (n: nat)
    ensures n <= |args|
    ensures n < |args| ==> Stops(args[n], isEventDefined)
    ensures forall i :: 0 <= i < n ==> !Stops(args[i], isEventDefined)
  {
    if args == [] then 0
    else
      var init := args[..|args| - 1];
      var n := FirstStop(init, isEventDefined);
      assert forall i :: 0 <= i < |init| ==> init[i] == args[i];
      if n < |init| then n else if Stops(args[|init|], isEventDefined) then |init| else |args|
  }

  lemma FirstStopIs<V>(args: seq<Arg<V>>, isEventDefined: bool, n: nat)
    requires n < |args| && Stops(args[n], isEventDefined)
    requires forall i :: 0 <= i < n ==> !Stops(args[i], isEventDefined)
    ensures FirstStop(args, isEventDefined) == n
  {
  }

  /** How the loop ends: it reaches the last argument, refuses a payload, or calls a nil option. */
  datatype Ending = Split | Refused | Panicked

  function EndingOf<V>(args: seq<Arg<V>>, isEventDefined: bool): Ending {
    var n := FirstStop(args, isEventDefined);
    if n == |args| then Split else if args[n].NilOption? then Panicked else Refused
  }

  /**
   With an event name a nil option panics wherever it is.  With an event of the caller's, whichever comes first
   decides: a payload is refused, a nil option panics.
   */
  lemma EndsIff<V>(args: seq<Arg<V>>)
    ensures EndingOf(args, false) == Panicked <==> NilOption in args
    ensures EndingOf(args, false) != Refused
    ensures EndingOf(args, true) == Split <==> OnlyOptions(args) && NilOption !in args
    ensures EndingOf(args, true) == Panicked <==>
              exists k :: 0 <= k < |args| && args[k].NilOption? && OnlyOptions(args[..k])
  {
    var n := FirstStop(args, true);
    if n < |args| {
      assert forall i :: 0 <= i < n ==> args[..n][i] == args[i];
    }
    if k :| 0 <= k < |args| && args[k].NilOption? && OnlyOptions(args[..k]) {
      assert forall i :: 0 <= i < k ==> args[..k][i] == args[i];
    }
  }

  /**
   The loop over the arguments.  However it ends, the payloads that it has come to fill the front of the array,
   and the rest of it is as it was.
   */
  method SplitArgs<V>(args: array<Arg<V>>, isEventDefined: bool)
    returns (ending: Ending, optLen: nat, options: Settings)
    modifies args
    ensures ending == EndingOf(old(args[..]), isEventDefined)
    ensures
      var before := Payloads(old(args[..FirstStop(args[..], isEventDefined)]));
      args[..] == before + old(args[..])[|before|..]
    ensures ending == Split ==> optLen == |Payloads(old(args[..]))| && options == Configured(old(args[..]))
  {
    ghost var was := args[..];
    ending, optLen, options := Split, 0, DEFAULTS;
    for i := 0 to args.Length
      invariant ending == Split && optLen == |Payloads(was[..i])| <= i
      invariant args[..optLen] == Payloads(was[..i])
      invariant forall k :: optLen <= k < args.Length ==> args[k] == was[k]
      invariant options == Configured(was[..i])
      invariant forall k :: 0 <= k < i ==> !Stops(was[k], isEventDefined)
    {
      assert was[..i + 1][..i] == was[..i];
      assert args[..] == args[..optLen] + was[optLen..];
      if args[i].AnOption? {
        options := Apply(options, args[i].option);
      } else if args[i].NilOption? {
        FirstStopIs(was, isEventDefined, i);
        ending := Panicked;
        return;
      } else {
        if isEventDefined {
          FirstStopIs(was, isEventDefined, i);
          ending := Refused;
          return;
        }
        args[optLen] := args[i];
        optLen := optLen + 1;
      }
    }
    assert was[..args.Length] == was;
    assert args[..] == args[..optLen] + was[optLen..];
  }

  datatype EmitEvent<V> = EmitEvent(name: string, payloads: seq<Arg<V>>)

  /** The first argument of Emit: a name, an event of the caller's or a nil pointer to one, or anything else. */
  datatype EventArg<V> = Named(name: string) | Predefined(event: Option<EmitEvent<V>>) | WrongType

  /** A nil event is sent on, for the serializer to refuse. */
  datatype Plan<V> =
    | InvalidEventType
    | OptionPanics
    | BothForms
    | SendPlain(event: Option<EmitEvent<V>>)
    | SendWithAck(event: Option<EmitEvent<V>>, options: Settings)

  /** What Emit is to send: an ack id is asked for exactly when an ack callback or a timeout was given. */
  function Planned<V>(event: EventArg<V>, args: seq<Arg<V>>): Plan<V> {
    if event.WrongType? then InvalidEventType
    else
      match EndingOf(args, event.Predefined?)
      case Panicked => OptionPanics
      case Refused => BothForms
      case Split =>
        var sent := if event.Predefined? then event.event else Some(EmitEvent(event.name, Payloads(args)));
        var options := Configured(args);
        if options.ackCallback.None? && options.timeout.None? then SendPlain(sent) else SendWithAck(sent, options)
  }

  /** The last WithAck, and the last WithTimeout, among the arguments. */
  ghost predicate IsLastAck<V>(args: seq<Arg<V>>, k: int) {
    && 0 <= k < |args| && args[k].AnOption? && args[k].option.WithAck?
    && forall i :: k < i < |args| && args[i].AnOption? ==> !args[i].option.WithAck?
  }

  ghost predicate IsLastTimeout<V>(args: seq<Arg<V>>, k: int) {
    && 0 <= k < |args| && args[k].AnOption? && args[k].option.WithTimeout?
    && forall i :: k < i < |args| && args[i].AnOption? ==> !args[i].option.WithTimeout?
  }

  /** The settings: those of the last option of each kind, or none. */
  ghost predicate SettingsOf<V>(args: seq<Arg<V>>, s: Settings) {
    && (forall k :: IsLastAck(args, k) ==> s.ackCallback == args[k].option.callback)
    && (forall k :: IsLastTimeout(args, k) ==>
          s.timeout == Some(args[k].option.timeout) && s.timeoutCallback == args[k].option.onTimeout)
    && (s.ackCallback.Some? ==> exists k :: IsLastAck(args, k))
    && (s.timeout.Some? || s.timeoutCallback.Some? ==> exists k :: IsLastTimeout(args, k))
  }

  lemma LastAck<V>(args: seq<Arg<V>>) returns (k: nat)
    ensures k == |args| ==> forall i :: 0 <= i < |args| && args[i].AnOption? ==> !args[i].option.WithAck?
    ensures k != |args| ==> IsLastAck(args, k)
  {
    k := |args|;
    while k > 0
      invariant 0 <= k <= |args|
      invariant forall i :: k <= i < |args| && args[i].AnOption? ==> !args[i].option.WithAck?
    {
      k := k - 1;
      if args[k].AnOption? && args[k].option.WithAck? {
        return;
      }
    }
    k := |args|;
  }

  lemma LastTimeout<V>(args: seq<Arg<V>>) returns (k: nat)
    ensures k == |args| ==> forall i :: 0 <= i < |args| && args[i].AnOption? ==> !args[i].option.WithTimeout?
    ensures k != |args| ==> IsLastTimeout(args, k)
  {
    k := |args|;
    while k > 0
      invariant 0 <= k <= |args|
      invariant forall i :: k <= i < |args| && args[i].AnOption? ==> !args[i].option.WithTimeout?
    {
      k := k - 1;
      if args[k].AnOption? && args[k].option.WithTimeout? {
        return;
      }
    }
    k := |args|;
  }

  lemma ConfiguredIs<V>(args: seq<Arg<V>>)
    ensures SettingsOf(args, Configured(args))
  {
    forall k | IsLastAck(args, k)
      ensures Configured(args).ackCallback == args[k].option.callback
    {
      LastOptionWins(args, k);
    }
    forall k | IsLastTimeout(args, k)
      ensures Configured(args).timeout == Some(args[k].option.timeout)
      ensures Configured(args).timeoutCallback == args[k].option.onTimeout
    {
      LastOptionWins(args, k);
    }
    NoOptionNoSetting(args);
    var a := LastAck(args);
    var t := LastTimeout(args);
  }

  /** The event that a plan sends, if it sends any. */
  ghost predicate Sends<V>(p: Plan<V>, event: Option<EmitEvent<V>>) {
    match p
    case SendPlain(e) => e == event
    case SendWithAck(e, _) => e == event
    case _ => false
  }

  /**
   What Emit is to send.  A name is sent with the payload arguments, in order; an event of the caller's, a nil one
   included, is sent as it is, and no payload may come with it.  A nil option panics unless such a payload comes
   first.
   */
  lemma PlanSends<V>(event: EventArg<V>, args: seq<Arg<V>>)
    ensures event.WrongType? <==> Planned(event, args) == InvalidEventType
    ensures event.Named? && NilOption !in args ==>
              Sends(Planned(event, args), Some(EmitEvent(event.name, Payloads(args))))
    ensures event.Predefined? && NilOption !in args && OnlyOptions(args) ==> Sends(Planned(event, args), event.event)
    ensures Planned(event, args) == BothForms <==>
              event.Predefined? && exists k :: 0 <= k < |args| && args[k].APayload? && NilOption !in args[..k]
    ensures Planned(event, args) == OptionPanics <==>
              || (event.Named? && NilOption in args)
              || (event.Predefined? && exists k :: 0 <= k < |args| && args[k].NilOption? && OnlyOptions(args[..k]))
  {
    hide Configured, Payloads, FirstStop, OnlyOptions;
    EndsIff(args);
    RefusedIff(args);
  }

  /** A payload beside an event of the caller's is refused, unless a nil option comes first. */
  lemma RefusedIff<V>(args: seq<Arg<V>>)
    ensures EndingOf(args, true) == Refused <==>
              exists k :: 0 <= k < |args| && args[k].APayload? && NilOption !in args[..k]
  {
    var n := FirstStop(args, true);
    if n < |args| {
      assert forall i :: 0 <= i < n ==> args[..n][i] == args[i];
    }
    if k :| 0 <= k < |args| && args[k].APayload? && NilOption !in args[..k] {
      assert forall i :: 0 <= i < k ==> args[..k][i] == args[i];
    }
  }

  /**
   An ack id is asked for exactly when the last WithAck has a callback or there is a WithTimeout, and then the
   settings are those of the last option of each kind.
   */
  lemma PlanAsksForAck<V>(event: EventArg<V>, args: seq<Arg<V>>, sent: Option<EmitEvent<V>>)
    requires Sends(Planned(event, args), sent)
    ensures Planned(event, args).SendWithAck? <==>
              (exists k :: IsLastAck(args, k) && args[k].option.callback.Some?) || (exists k :: IsLastTimeout(args, k))
    ensures Planned(event, args).SendWithAck? ==> SettingsOf(args, Planned(event, args).options)
  {
    ConfiguredIs(args);
  }

  /** Emit, once the connect gate is open, up to the call that sends. */
  method PlanEmit<V>(event: EventArg<V>, args: array<Arg<V>>) returns (plan: Plan<V>)
    modifies args
    ensures plan == Planned(event, old(args[..]))
    ensures event.Named? ==>
              var before := Payloads(old(args[..FirstStop(args[..], false)]));
              args[..] == before + old(args[..])[|before|..]
    ensures !event.Named? ==> args[..] == old(args[..])
  {
    if event.WrongType? {
      return InvalidEventType;
    }
    ghost var was := args[..];
    ghost var n := FirstStop(was, event.Predefined?);
    NoPayloadsIff(was[..n]);
    var ending, optLen, options := SplitArgs(args, event.Predefined?);
    if ending == Panicked {
      return OptionPanics;
    } else if ending == Refused {
      return BothForms;
    }
    assert was[..n] == was;
    var sent := if event.Predefined? then event.event else Some(EmitEvent(event.name, args[..optLen]));
    if options.ackCallback.None? && options.timeout.None? {
      return SendPlain(sent);
    }
    return SendWithAck(sent, options);
  }
}
