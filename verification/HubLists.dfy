/** What the queries of the database and of the bank's book return. */
module HubLists {
  import opened MachineInts
  import opened Collections
  import opened PaymentStatus
  import opened Hub

  lemma ItemIdsMembers(items: map<Id, Item>, run: Id)
    ensures forall id :: id in ItemIds(items, run) <==> id in items && items[id].run == run
    ensures NoDup(ItemIds(items, run))
  {
  }

  lemma {:induction false} SelectedMembers(payments: map<Id, Payment>, ids: seq<Id>, status: Status)
    ensures forall id :: id in Selected(payments, ids, status) <==>
                           id in ids && id in payments && payments[id].status == status
    ensures NoDup(ids) ==> NoDup(Selected(payments, ids, status))
  {
    if ids != [] {
      SelectedMembers(payments, ids[1..], status);
      assert ids == [ids[0]] + ids[1..];
    }
  }

  lemma ListedMembers(t: Tables, status: Status, limit: nat)
    ensures forall id :: id in ListByStatus(t, status, limit) ==> id in t.payments && t.payments[id].status == status
    ensures NoDup(t.newestFirst) ==> NoDup(ListByStatus(t, status, limit))
  {
    SelectedMembers(t.payments, t.newestFirst, status);
  }

  lemma {:induction false} FindRefMember(payments: map<Id, Payment>, ids: seq<Id>, ref: string)
    ensures match FindRef(payments, ids, ref)
            case Some(id) => id in ids && id in payments && payments[id].bankRef == ref
            case None => forall id :: id in ids && id in payments ==> payments[id].bankRef != ref
  {
    if ids != [] { FindRefMember(payments, ids[1..], ref); }
  }

  lemma {:induction false} FindKeyMember(payments: map<Id, Payment>, ids: seq<Id>, key: string)
    ensures match FindKey(payments, ids, key)
            case Some(id) => id in ids && id in payments && payments[id].key == key
            case None => forall id :: id in ids && id in payments ==> payments[id].key != key
  {
    if ids != [] { FindKeyMember(payments, ids[1..], key); }
  }

  ghost predicate Debited(ledger: seq<Debit>, key: string) { exists d :: d in ledger && d.key == key }

  predicate AnswersOk(call: BankCall) { call.Answered? && call.ref != "" }

  lemma {:induction false} FindDebitIff(ledger: seq<Debit>, key: string)
    ensures FindDebit(ledger, key).Some? <==> Debited(ledger, key)
    ensures FindDebit(ledger, key).Some? ==>
              FindDebit(ledger, key).value in ledger && FindDebit(ledger, key).value.key == key
  {
    if ledger != [] {
      FindDebitIff(ledger[1..], key);
      assert ledger == [ledger[0]] + ledger[1..];
      assert ledger[0] in ledger;
    }
  }

  /** What the bank books for one request. */
  lemma BankBooks(ledger: seq<Debit>, key: string, amount: int64, call: BankCall)
    requires key != ""
    ensures var (after, reply) := BankSend(ledger, key, amount, call);
            && after == (if call == Unreached || Debited(ledger, key) then ledger
                         else ledger + [Debit(key, amount, call.ref)])
            && (reply.BankOk? <==> AnswersOk(call))
  {
    FindDebitIff(ledger, key);
  }
}
