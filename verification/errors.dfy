/**
 This module holds the failure kinds of the provider and model selection
 layer and the result type that stands in for the thrown `Error`s of the TypeScript implementation.
 Every operation that can throw returns a `Result` instead.
 */
module Errors {

  datatype Option<+T> = None | Some(value: T)

  /** One case per `throw new Error(...)` of the selection layer. */
  datatype Error =
    | UnknownProvider(providerId: string)
    | UnknownModel(modelId: string)
    | ProviderModelMismatch(modelId: string, providerId: string)

  /** The kind of an error, without its payload. */
  datatype ErrorKind = UnknownProviderKind | UnknownModelKind | MismatchKind

  /** A failure-compatible result, usable with `:-`. */
  datatype Result<+T> = Ok(value: T) | Err(error: Error) {

    predicate IsFailure() {
      Err?
    }

    function PropagateFailure<U>(): Result<U>
      requires Err?
    {
      Err(error)
    }

    function Extract(): T
      requires Ok?
    {
      value
    }
  }

  function Kind(e: Error): ErrorKind {
    match e
    case UnknownProvider(_) => UnknownProviderKind
    case UnknownModel(_) => UnknownModelKind
    case ProviderModelMismatch(_, _) => MismatchKind
  }

  const UnknownProviderPrefix: string := "Unknown provider: "
  const UnknownModelPrefix: string := "Unknown model: "
  const MismatchPrefix: string := "Model "
  const MismatchMiddle: string := " does not belong to provider "

  /** The message text of each thrown error (`base.ts`, `model.ts`, `index.ts`). */
  function Message(e: Error): string {
    match e
    case UnknownProvider(id) => UnknownProviderPrefix + id
    case UnknownModel(id) => UnknownModelPrefix + id
    case ProviderModelMismatch(m, p) => MismatchPrefix + m + MismatchMiddle + p
  }

  /** Reads the kind of an error back from its message, by its fixed prefix. */
  function KindOfMessage(s: string): Option<ErrorKind> {
    if |UnknownProviderPrefix| <= |s| && s[..|UnknownProviderPrefix|] == UnknownProviderPrefix then
      Some(UnknownProviderKind)
    else if |UnknownModelPrefix| <= |s| && s[..|UnknownModelPrefix|] == UnknownModelPrefix then
      Some(UnknownModelKind)
    else if |MismatchPrefix| <= |s| && s[..|MismatchPrefix|] == MismatchPrefix then
      Some(MismatchKind)
    else
      None
  }

  /** A caller that only sees the message text can still tell which check
      failed, and for the two lookups recover the id that was not found. */
  lemma MessageIdentifiesError(e: Error)
    ensures KindOfMessage(Message(e)) == Some(Kind(e))
    ensures e.UnknownProvider? ==> Message(e)[|UnknownProviderPrefix|..] == e.providerId
    ensures e.UnknownModel? ==> Message(e)[|UnknownModelPrefix|..] == e.modelId
  {
    var s := Message(e);
    match e
    case UnknownProvider(id) =>
      assert s[..|UnknownProviderPrefix|] == UnknownProviderPrefix;
    case UnknownModel(id) =>
      assert s[..|UnknownModelPrefix|] == UnknownModelPrefix;
      if |UnknownProviderPrefix| <= |s| {
        assert s[..|UnknownProviderPrefix|][8] == 'm';
      }
    case ProviderModelMismatch(m, p) =>
      assert s[..|MismatchPrefix|] == MismatchPrefix;
      assert s[0] == 'M';
      if |UnknownProviderPrefix| <= |s| {
        assert s[..|UnknownProviderPrefix|][0] == 'M';
      }
      if |UnknownModelPrefix| <= |s| {
        assert s[..|UnknownModelPrefix|][0] == 'M';
      }
  }
}
