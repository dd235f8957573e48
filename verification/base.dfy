/**
 The provider abstraction and the provider registry. `base.ts` keeps the
 registry in a module-level mutable map; here it is a map value that
 registration returns and lookup reads, so a lookup cannot change it.
 */
module Base {
  import opened Errors
  import opened Prompts

  /** The normalised request a provider receives. */
  datatype ProviderRequest = ProviderRequest(
    inputLanguage: string,
    outputLanguage: string,
    inputCode: string,
    model: string,
    apiKey: Option<string>)

  /** One entry of a chat history handed to a completion client. */
  datatype ChatMessage = ChatMessage(role: string, content: string)

  /** The one streaming completion call a provider issues. It stands for the
      stream the provider returns: the tokens themselves come from the model
      server and are not modelled. */
  datatype CompletionCall = CompletionCall(model: string, system: Prompt, messages: seq<ChatMessage>)

  /** A backend: its id and its streaming-translate operation. */
  datatype Provider = Provider(id: string, streamTranslate: ProviderRequest -> CompletionCall)

  type Registry = map<string, Provider>

  /** The registry before anything is registered. */
  const EmptyRegistry: Registry := map[]

  /** Every provider is stored under its own id. */
  ghost predicate WellKeyed(reg: Registry) {
    forall id :: id in reg ==> reg[id].id == id
  }

  /** Looks a provider up by id; an id with no entry is an unknown provider. */
  function GetProvider(reg: Registry, id: string): (r: Result<Provider>)
    ensures r.Ok? <==> id in reg
    ensures r.Ok? ==> r.value == reg[id]
    ensures r.Err? ==> r.error == UnknownProvider(id)
    ensures WellKeyed(reg) && r.Ok? ==> r.value.id == id
  {
    if id in reg then Ok(reg[id]) else Err(UnknownProvider(id))
  }

  /** Stores `p` under its id, replacing whatever was stored there. */
  function RegisterProvider(reg: Registry, p: Provider): (r: Registry)
    ensures r.Keys == reg.Keys + {p.id}
    ensures GetProvider(r, p.id) == Ok(p)
    ensures forall id :: id != p.id ==> GetProvider(r, id) == GetProvider(reg, id)
    ensures WellKeyed(reg) ==> WellKeyed(r)
  {
    reg[p.id := p]
  }

  /** Registers the providers in order, as a sequence of startup calls does. */
  function RegisterAll(reg: Registry, ps: seq<Provider>): Registry
    decreases |ps|
  {
    if ps == [] then reg
    else RegisterProvider(RegisterAll(reg, ps[..|ps| - 1]), ps[|ps| - 1])
  }

  /** The last provider in `ps` whose id is `id`, if any. */
  function LastWithId(ps: seq<Provider>, id: string): (r: Option<Provider>)
    ensures r.Some? ==> r.value in ps && r.value.id == id
    ensures r.Some? ==> exists i :: 0 <= i < |ps| && ps[i] == r.value && forall j :: i < j < |ps| ==> ps[j].id != id
    ensures r.None? <==> forall i :: 0 <= i < |ps| ==> ps[i].id != id
    decreases |ps|
  {
    if ps == [] then None
    else if ps[|ps| - 1].id == id then Some(ps[|ps| - 1])
    else LastWithId(ps[..|ps| - 1], id)
  }

  /** Registering a provider twice is the same as registering it once. */
  lemma RegisterIdempotent(reg: Registry, p: Provider)
    ensures RegisterProvider(RegisterProvider(reg, p), p) == RegisterProvider(reg, p)
  {
  }

  /** Of two providers registered under one id, the second one is kept. */
  lemma RegisterLastWriteWins(reg: Registry, p: Provider, q: Provider)
    requires p.id == q.id
    ensures RegisterProvider(RegisterProvider(reg, p), q) == RegisterProvider(reg, q)
    ensures GetProvider(RegisterProvider(RegisterProvider(reg, p), q), p.id) == Ok(q)
  {
  }

  /** After any sequence of registrations, an id resolves to the last provider
      registered under it, and to what it resolved to before when none was. */
  lemma {:induction false} GetAfterRegisterAll(reg: Registry, ps: seq<Provider>, id: string)
    ensures GetProvider(RegisterAll(reg, ps), id) ==
            match LastWithId(ps, id)
            case Some(p) => Ok(p)
            case None => GetProvider(reg, id)
    decreases |ps|
  {
    if ps != [] {
      GetAfterRegisterAll(reg, ps[..|ps| - 1], id);
    }
  }

  /** An id that no registration used is an unknown provider. */
  lemma NeverRegisteredIsUnknown(ps: seq<Provider>, id: string)
    requires forall i :: 0 <= i < |ps| ==> ps[i].id != id
    ensures GetProvider(RegisterAll(EmptyRegistry, ps), id) == Err(UnknownProvider(id))
  {
    GetAfterRegisterAll(EmptyRegistry, ps, id);
  }

  /** Registries built by registration alone keep every provider under its own id. */
  lemma {:induction false} RegisterAllWellKeyed(reg: Registry, ps: seq<Provider>)
    requires WellKeyed(reg)
    ensures WellKeyed(RegisterAll(reg, ps))
    decreases |ps|
  {
    if ps != [] {
      RegisterAllWellKeyed(reg, ps[..|ps| - 1]);
    }
  }
}
