/** Errors with a layer and a code, and their cause chains. */
module ZbErr {
  import opened Text

  /**
   Plain and Canceled are errors without a cause; Wrapped is what fmt.Errorf gives for a format that
   starts with %w: its own text, and the wrapped error as cause.
   */
  datatype Error =
    | Plain(message: string)
    | Canceled // the one value context.Canceled, told from every other error with its text
    | Wrapped(message: string, inner: Error)
    | Zb(layer: string, code: string, phase: string, owner: string, cause: Option<Error>, origin: seq<string>)

  const CRITICAL := "Critical"

  function New(layer: string, code: string, cause: Option<Error>): Error {
    Zb(layer, code, "", "", cause, [])
  }

  /** Error.Error(). */
  function Message(err: Error): string {
    match err
    case Plain(message) => message
    case Canceled => "context canceled"
    case Wrapped(message, _) => message
    case Zb(layer, code, phase, owner, cause, _) =>
      layer + ":" + code
      + (if phase != "" then " phase=" + phase else "")
      + (if owner != "" then " owner=" + owner else "")
      + (match cause case None => "" case Some(inner) => ": " + Message(inner))
  }

  function Unwrap(err: Error): Option<Error> {
    match err
    case Plain(_) => None
    case Canceled => None
    case Wrapped(_, inner) => Some(inner)
    case Zb(_, _, _, _, cause, _) => cause
  }

  /** The cause chain, outermost first. */
  function Chain(err: Error): (r: seq<Error>)
    ensures r != [] && r[0] == err
  {
    match err
    case Plain(_) => [err]
    case Canceled => [err]
    case Wrapped(_, inner) => [err] + Chain(inner)
    case Zb(_, _, _, _, None, _) => [err]
    case Zb(_, _, _, _, Some(cause), _) => [err] + Chain(cause)
  }

  /** errors.As for *Error: the first of them in the chain. */
  function FirstZb(err: Error): (r: Option<Error>)
    ensures r.Some? ==> r.value.Zb?
  {
    match err
    case Plain(_) => None
    case Canceled => None
    case Wrapped(_, inner) => FirstZb(inner)
    case Zb(_, _, _, _, _, _) => Some(err)
  }

  /** Some error in the cause chain has this layer and code. */
  ghost predicate Carries(err: Error, layer: string, code: string) {
    exists e :: e in Chain(err) && e.Zb? && e.layer == layer && e.code == code
  }

  lemma {:induction false} FirstZbInChain(err: Error)
    ensures FirstZb(err).Some? ==> FirstZb(err).value in Chain(err)
  {
    match err {
      case Wrapped(_, inner) => FirstZbInChain(inner);
      case _ =>
    }
  }

  /** Walking the chain and asking errors.As at each link finds exactly what the chain carries. */
  method Is(err: Option<Error>, layer: string, code: string) returns (found: bool)
    ensures found <==> err.Some? && Carries(err.value, layer, code)
  {
    var current := err;
    while current.Some?
      invariant err.None? ==> current.None?
      invariant err.Some? ==>
        (Carries(err.value, layer, code) <==> current.Some? && Carries(current.value, layer, code))
      decreases if current.Some? then |Chain(current.value)| else 0
    {
      var zerr := FirstZb(current.value);
      FirstZbInChain(current.value);
      if zerr.Some? && zerr.value.layer == layer && zerr.value.code == code {
        return true;
      }
      ghost var link := current.value;
      current := Unwrap(current.value);
      assert Chain(link) == if current.Some? then [link] + Chain(current.value) else [link];
    }
    return false;
  }

  /** The origin chain of Critical: the own layer, then what the first *Error in the cause recorded. */
  function CriticalOrigin(layer: string, cause: Error, origin: seq<string>): seq<string> {
    if origin != [] then origin
    else [layer] + (match FirstZb(cause) case None => [] case Some(zerr) => zerr.origin)
  }

  method Critical(layer: string, cause: Error, origin: seq<string>) returns (err: Error)
    ensures err == Zb(layer, CRITICAL, "", "", Some(cause), CriticalOrigin(layer, cause, origin))
    ensures err.origin != []
    ensures Validate(err).None?
  {
    var chain := origin;
    if chain == [] {
      chain := [layer];
      var zerr := FirstZb(cause);
      if zerr.Some? {
        chain := chain + zerr.value.origin;
      }
    }
    err := Zb(layer, CRITICAL, "", "", Some(cause), chain);
  }

  function Validate(err: Error): Option<Error>
    requires err.Zb?
  {
    if err.layer == "cli" && (err.code == "StartFailed" || err.code == "UpFailed") && err.phase == "" then
      Some(Plain(err.layer + "/" + err.code + " requires phase"))
    else if err.code == CRITICAL && err.origin == [] then
      Some(Plain(err.layer + "/" + err.code + " requires origin chain"))
    else None
  }

  /** Wrapping keeps everything that was carried. */
  lemma {:induction false} WrappingKeeps(err: Error, inner: Error, layer: string, code: string)
    requires Unwrap(err) == Some(inner)
    ensures Carries(err, layer, code) <==>
      (err.Zb? && err.layer == layer && err.code == code) || Carries(inner, layer, code)
  {}

  /** The text of a cause is part of the text of the error. */
  lemma {:induction false} CauseTextOccurs(layer: string, code: string, cause: Error)
    ensures Occurs(Message(cause), Message(New(layer, code, Some(cause))))
  {
    var before := layer + ":" + code + "" + "" + ": ";
    assert Message(New(layer, code, Some(cause))) == before + Message(cause) + "" by {
      assert before + Message(cause) == layer + ":" + code + "" + "" + (": " + Message(cause));
    }
    OccursIn(before, Message(cause), "");
  }

  /** Only a start or up failure of the command line needs a phase, and only a critical error an origin. */
  lemma {:induction false} ValidateExactly(err: Error)
    requires err.Zb?
    ensures Validate(err).None? <==>
      && (err.layer == "cli" && err.code in ["StartFailed", "UpFailed"] ==> |err.phase| > 0)
      && (err.code == "Critical" ==> |err.origin| > 0)
  {}

  /** The text of an error begins with its layer and code; phase and owner follow only where they are set. */
  lemma {:induction false} MessageParts(layer: string, code: string, phase: string, owner: string,
      cause: Option<Error>, origin: seq<string>)
    ensures var text := Message(Zb(layer, code, phase, owner, cause, origin));
      var end := if cause.None? then "" else ": " + Message(cause.value);
      && (phase == "" && owner == "" ==> text == layer + ":" + code + end)
      && (phase != "" && owner == "" ==> text == layer + ":" + code + " phase=" + phase + end)
      && (phase == "" && owner != "" ==> text == layer + ":" + code + " owner=" + owner + end)
      && (phase != "" && owner != "" ==> text == layer + ":" + code + " phase=" + phase + " owner=" + owner + end)
  {
    var head := layer + ":" + code;
    assert head + "" == head;
    assert head + " phase=" + phase == head + (" phase=" + phase);
    assert head + " owner=" + owner == head + (" owner=" + owner);
    assert head + " phase=" + phase + " owner=" + owner == head + (" phase=" + phase) + (" owner=" + owner);
    assert head + (" phase=" + phase) + "" == head + (" phase=" + phase);
  }
}
