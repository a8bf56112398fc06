// From building to synchronization: what a fixed operation gives its recipients once it is executed.
module Delivery {
  import opened Wrappers
  import opened Pool
  import opened Ledger
  import opened LedgerLaws
  import opened Receipts
  import opened Synchronizer
  import opened SnapshotLaws
  import opened Building

  // The entry of an output of an accepted history is that output.
  lemma EntryOf(s: Setting, ops: seq<Observed>, k: nat, i: nat)
    requires Accepts(s, ops) && k < |ops| && i < |ops[k].request.outputs|
    ensures var id := s.crypto.outputId(IdOf(s, ops[k]), i);
      id in Created(s, ops) && Created(s, ops)[id].observed == ops[k] && Created(s, ops)[id].index == i
  {
    var id := s.crypto.outputId(IdOf(s, ops[k]), i);
    AcceptedLedger(s, ops);
    EntriesTrue(s, ops, id);
    LedgerIffCustody(s, ops);
    assert CreatesAt(s, ops[k], i, id);
    var e := Created(s, ops)[id];
    var j :| 0 <= j < |ops| && ops[j] == e.observed && CreatesAt(s, ops[j], e.index, id);
  }

  // No retained key mistakes the packet for something else.
  predicate KeysAgree(keys: KeyPort, context: Context, request: Request, i: nat, opening: Opening) {
    i < |request.outputs|
    && forall k :: k in keys.keysOf(request.outputs[i].owner).GetOr([]) ==>
         keys.open(k, context, request, i) == None || keys.open(k, context, request, i) == Some(opening)
  }

  lemma OpenedAs(s: Setting, keys: KeyPort, id: nat, e: Entry, coin: Coin, opening: Opening)
    requires e.index < |e.observed.request.outputs| && CoinFor(s, keys, id, e, coin)
    requires KeysAgree(keys, s.context, e.observed.request, e.index, opening)
    ensures coin.opening == opening
  {
    var k :| FirstOpens(keys, KeysFor(keys, e), k, s.context, e.observed.request, e.index)
      && keys.open(KeysFor(keys, e)[k], s.context, e.observed.request, e.index) == Some(coin.opening);
    assert KeysFor(keys, e)[k] in KeysFor(keys, e);
  }

  // The snapshot holds the output under this opening.
  ghost predicate ReceivedAs(s: Setting, ops: seq<Observed>, ports: Ports, id: nat, owner: nat, opening: Opening)
    requires Confirmed(s, ops, ports)
  {
    exists coin :: coin in CoinsOf(s, ops, ports) && coin.id == id && coin.owner == owner && coin.opening == opening
  }

  lemma EntryReceived(s: Setting, ops: seq<Observed>, ports: Ports, id: nat, opening: Opening, secret: nat)
    requires Confirmed(s, ops, ports) && id in Created(s, ops) && Owned(ports.owners, Created(s, ops)[id])
    requires var e := Created(s, ops)[id];
      && secret in KeysFor(ports.keys, e) && ports.keys.open(secret, s.context, e.observed.request, e.index) == Some(opening)
      && KeysAgree(ports.keys, s.context, e.observed.request, e.index, opening)
    ensures ReceivedAs(s, ops, ports, id, OutputOf(Created(s, ops)[id]).owner, opening)
  {
    SnapshotCoins(s, ops, ports, id);
    assert SomeKeyOpens(s, ports.keys, Created(s, ops)[id]);
    var coin :| coin in CoinsOf(s, ops, ports) && coin.id == id;
    OpenedAs(s, ports.keys, id, Created(s, ops)[id], coin, opening);
  }

  // End to end: when an operation that was fixed is part of an accepted history, each recipient that
  // kept the secret of its key finds in its snapshot the coin with the amount and blinding fixed for it.
  lemma FixedIsReceived(t: Tools, intent: Intent, coins: seq<Coin>, plans: seq<Plan>, draws: Draws, f: Fixed, public: nat -> nat,
      s: Setting, ops: seq<Observed>, ports: Ports, k: nat, i: nat, secret: nat)
    requires FixedFor(t, s.context, intent, coins, plans, f) && DrawnFrom(t, s.context, intent, coins, plans, draws, f)
    requires Confirmed(s, ops, ports) && k < |ops| && ops[k].request == f.request && i < |plans|
    requires plans[i].recipient.owner in ports.owners
    requires secret in ports.keys.keysOf(plans[i].recipient.owner).GetOr([]) && public(secret) == plans[i].recipient.key
    requires Opens(t, ports.keys, public) && KeysAgree(ports.keys, s.context, f.request, i, f.openings[i])
    ensures ReceivedAs(s, ops, ports, s.crypto.outputId(IdOf(s, ops[k]), i), plans[i].recipient.owner,
                       Opening(plans[i].amount, draws.blindings(i)))
  {
    EntryOf(s, ops, k, i);
    PacketsOpen(t, s.context, intent, coins, plans, draws, f, ports.keys, public, i, secret);
    EntryReceived(s, ops, ports, s.crypto.outputId(IdOf(s, ops[k]), i), f.openings[i], secret);
  }
}
