/**
 The registry of broadcast channels in src/api/result_bus.rs as a value: job ids to channels, and per
 channel how often it was sent on and how many receivers it has. The class in ResultBus implements
 these operations, and Bell interleaves them.
 */
module Channels {
  import opened Redis

  datatype Channel = Channel(sent: nat, receivers: nat)

  datatype Hub<C(==)> = Hub(registry: map<JobId, C>, channels: map<C, Channel>)

  predicate Resolves<C>(h: Hub<C>, id: JobId) {
    id in h.registry ==> h.registry[id] in h.channels
  }

  /** register, with `unused` as the channel that is made if the id has none. */
  function Subscribed<C>(h: Hub<C>, id: JobId, unused: C): Hub<C>
    requires Resolves(h, id)
  {
    var c := if id in h.registry then h.registry[id] else unused;
    var channel := if id in h.registry then h.channels[c] else Channel(0, 0);
    Hub(h.registry[id := c], h.channels[c := channel.(receivers := channel.receivers + 1)])
  }

  /** WaiterGuard::drop: the entry goes if its channel has no receiver left. */
  function GuardDropped<C>(h: Hub<C>, id: JobId): Hub<C>
    requires Resolves(h, id)
  {
    if id in h.registry && h.channels[h.registry[id]].receivers == 0 then h.(registry := h.registry - {id}) else h
  }

  /** A send without receivers is dropped. */
  function Rung<C>(h: Hub<C>, c: C): Hub<C>
    requires c in h.channels
  {
    var channel := h.channels[c];
    if channel.receivers == 0 then h else h.(channels := h.channels[c := channel.(sent := channel.sent + 1)])
  }

  function ReceiverDropped<C>(h: Hub<C>, c: C): Hub<C>
    requires c in h.channels && h.channels[c].receivers > 0
  {
    h.(channels := h.channels[c := h.channels[c].(receivers := h.channels[c].receivers - 1)])
  }

  /** The capacity is one: a receiver that missed sends is told so, and then holds the newest. */
  function AfterRecv(next: nat, sent: nat): nat
    requires next < sent
  {
    if next + 1 < sent then sent - 1 else sent
  }
}
