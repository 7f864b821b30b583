/**
 The in-memory payment registry of the echo server: one process-wide,
 insertion-ordered list of payment records, seeded at start-up, grown by
 the create handler and read by the list, count and lookup handlers.
 */
module Registry {

  import opened Wrappers
  import Decimal

  /** A payment record. `amount` stands for a JSON number; it is only stored and returned. */
  datatype Payment = Payment(id: string, invoice: string, currency: string, amount: real)

  const StatusOK: int := 200
  const StatusFound: int := 302
  const StatusNotFound: int := 404

  /** What a handler writes back: JSON-encoded values (`c.JSON`) or plain text (`c.String`). */
  datatype Body =
    | JsonPayment(payment: Payment)
    | JsonPayments(items: seq<Payment>)
    | JsonString(text: string)
    | PlainText(text: string)

  datatype Response = Response(status: int, body: Body)

  /** The create handler either answers or, on a body that does not decode, ends the process. */
  datatype Outcome = Replied(response: Response) | Terminated

  const NotFoundMessage: string := "payment not found"
  const CountPrefix: string := "count: "
  const CreatedMessage: string := "We got your payment!"

  /** The three records the store holds right after start-up. */
  const SeedRecords: seq<Payment> := [
    Payment("1", "X672762", "USD", 100.0),
    Payment("2", "E35565", "EUR", 200.0),
    Payment("3", "J35565", "JPN", 3000.0)
  ]

  /** `k` is the position of the first record of `ps` whose ID is `id`. */
  predicate FirstMatch(ps: seq<Payment>, id: string, k: int) {
    0 <= k < |ps| && ps[k].id == id && forall j :: 0 <= j < k ==> ps[j].id != id
  }

  predicate HasID(ps: seq<Payment>, id: string) {
    exists k :: 0 <= k < |ps| && ps[k].id == id
  }

  /**
   The answer of the lookup handler on store `ps`: the first record with the
   requested ID with status Found, or status Not Found with a JSON string.
   */
  function Lookup(ps: seq<Payment>, id: string): (r: Response)
    ensures HasID(ps, id) <==> r.status == StatusFound
    ensures forall k :: FirstMatch(ps, id, k) ==> r == Response(StatusFound, JsonPayment(ps[k]))
    ensures !HasID(ps, id) ==> r == Response(StatusNotFound, JsonString(NotFoundMessage))
  {
    if ps == [] then
      Response(StatusNotFound, JsonString(NotFoundMessage))
    else if ps[0].id == id then
      Response(StatusFound, JsonPayment(ps[0]))
    else
      var r := Lookup(ps[1..], id);
      assert HasID(ps, id) <==> HasID(ps[1..], id) by {
        if HasID(ps, id) {
          var k :| 0 <= k < |ps| && ps[k].id == id;
          assert ps[1..][k - 1].id == id;
        }
        if HasID(ps[1..], id) {
          var k :| 0 <= k < |ps[1..]| && ps[1..][k].id == id;
          assert ps[k + 1].id == id;
        }
      }
      assert forall k :: FirstMatch(ps, id, k) ==> FirstMatch(ps[1..], id, k - 1) by {
        forall k | FirstMatch(ps, id, k) ensures FirstMatch(ps[1..], id, k - 1) {
          assert k != 0;
          forall j | 0 <= j < k - 1 ensures ps[1..][j].id != id {
            assert ps[1..][j] == ps[j + 1];
          }
        }
      }
      r
  }

  /** The lookup answer for a store grown by one record at the end. */
  lemma {:induction false} LookupAfterAppend(ps: seq<Payment>, p: Payment, id: string)
    ensures Lookup(ps + [p], id) ==
      if HasID(ps, id) then Lookup(ps, id)
      else if p.id == id then Response(StatusFound, JsonPayment(p))
      else Response(StatusNotFound, JsonString(NotFoundMessage))
  {
    var qs := ps + [p];
    if HasID(ps, id) {
      var k :| 0 <= k < |ps| && ps[k].id == id;
      FirstMatchExists(ps, id, k);
      var m :| FirstMatch(ps, id, m);
      assert FirstMatch(qs, id, m) by {
        assert forall j :: 0 <= j <= m ==> qs[j] == ps[j];
      }
    } else if p.id == id {
      assert FirstMatch(qs, id, |ps|) by {
        assert forall j :: 0 <= j < |ps| ==> qs[j] == ps[j];
      }
    } else {
      assert !HasID(qs, id) by {
        assert forall j :: 0 <= j < |ps| ==> qs[j] == ps[j];
      }
    }
  }

  /** If some record at or before `k` has ID `id`, a first such record exists. */
  lemma {:induction false} FirstMatchExists(ps: seq<Payment>, id: string, k: nat)
    requires k < |ps| && ps[k].id == id
    ensures exists m :: FirstMatch(ps, id, m) && m <= k
  {
    if exists j :: 0 <= j < k && ps[j].id == id {
      var j :| 0 <= j < k && ps[j].id == id;
      FirstMatchExists(ps, id, j);
    } else {
      assert FirstMatch(ps, id, k);
    }
  }

  /**
   Appending a record whose ID is already present keeps both records, and
   lookups of that ID still return the earlier one.
   */
  lemma DuplicateIsShadowed(ps: seq<Payment>, p: Payment)
    requires HasID(ps, p.id)
    ensures (ps + [p])[|ps|] == p
    ensures exists k :: 0 <= k < |ps| && (ps + [p])[k].id == p.id
    ensures Lookup(ps + [p], p.id) == Lookup(ps, p.id)
  {
    LookupAfterAppend(ps, p, p.id);
    var k :| 0 <= k < |ps| && ps[k].id == p.id;
    assert (ps + [p])[k] == ps[k];
  }

  /** The count handler's body text reads back as a number. */
  function ParseCount(s: string): (n: Option<nat>)
    ensures n.Some? ==> |s| > |CountPrefix| && s[..|CountPrefix|] == CountPrefix
  {
    if |s| > |CountPrefix| && s[..|CountPrefix|] == CountPrefix && Decimal.AllDigits(s[|CountPrefix|..])
    then Some(Decimal.Value(s[|CountPrefix|..]))
    else None
  }

  class Store {
    /** The payments in insertion order. */
    var payments: seq<Payment>

    /** The store as declared, before start-up seeds it. */
    constructor ()
      ensures payments == []
    {
      payments := [];
    }

    /** Start-up replaces the contents with the three seed records. */
    method Seed()
      modifies this
      ensures payments == SeedRecords
      ensures |payments| == 3
      ensures payments[0] == Payment("1", "X672762", "USD", 100.0)
      ensures payments[1] == Payment("2", "E35565", "EUR", 200.0)
      ensures payments[2] == Payment("3", "J35565", "JPN", 3000.0)
    {
      payments := SeedRecords;
    }

    /** The list handler: the whole store, in insertion order. */
    function List(): (r: Response)
      reads this
      ensures r.status == StatusOK && r.body == JsonPayments(payments)
    {
      Response(StatusOK, JsonPayments(payments))
    }

    /** The count handler: "count: N" as a JSON string, N the number of stored records. */
    function Count(): (r: Response)
      reads this
      ensures r.status == StatusOK && r.body.JsonString?
      ensures r.body.text == CountPrefix + Decimal.FromNat(|payments|)
      ensures ParseCount(r.body.text) == Some(|payments|)
    {
      var digits := Decimal.FromNat(|payments|);
      var text := CountPrefix + digits;
      assert text[..|CountPrefix|] == CountPrefix && text[|CountPrefix|..] == digits;
      Decimal.ValueOfDecimal(|payments|);
      Response(StatusOK, JsonString(text))
    }

    /** The lookup handler: a scan in insertion order that stops at the first match. */
    method GetByID(id: string) returns (r: Response)
      ensures r == Lookup(payments, id)
    {
      var i := 0;
      while i < |payments|
        invariant 0 <= i <= |payments|
        invariant forall j :: 0 <= j < i ==> payments[j].id != id
      {
        if payments[i].id == id {
          assert FirstMatch(payments, id, i);
          return Response(StatusFound, JsonPayment(payments[i]));
        }
        i := i + 1;
      }
      return Response(StatusNotFound, JsonString(NotFoundMessage));
    }

    /**
     The create handler, given the result of decoding the request body.
     A decoded record is appended with no uniqueness check; a body that does
     not decode ends the process before the append.
     */
    method Create(decoded: Option<Payment>) returns (out: Outcome)
      modifies this
      ensures decoded.None? ==> out == Terminated && payments == old(payments)
      ensures decoded.Some? ==>
        && out == Replied(Response(StatusOK, PlainText(CreatedMessage)))
        && payments == old(payments) + [decoded.value]
        && |payments| == |old(payments)| + 1
        && payments[|payments| - 1] == decoded.value
        && payments[..|payments| - 1] == old(payments)
    {
      if decoded.None? {
        return Terminated;
      }
      payments := payments + [decoded.value];
      return Replied(Response(StatusOK, PlainText(CreatedMessage)));
    }
  }

  /** The number in the count body is the length of the list the list handler returns. */
  lemma CountAgreesWithList(s: Store)
    ensures ParseCount(s.Count().body.text) == Some(|s.List().body.items|)
  {
  }

  /** Lookups on the seeded store find each seed record by its ID and nothing else. */
  lemma SeedLookups(id: string)
    ensures Lookup(SeedRecords, "1").body == JsonPayment(SeedRecords[0])
    ensures Lookup(SeedRecords, "2").body == JsonPayment(SeedRecords[1])
    ensures Lookup(SeedRecords, "3").body == JsonPayment(SeedRecords[2])
    ensures id != "1" && id != "2" && id != "3" ==> Lookup(SeedRecords, id).status == StatusNotFound
  {
  }

  /** A record that was found before a create is still the one found after it. */
  lemma FoundSurvivesCreate(ps: seq<Payment>, p: Payment, id: string)
    requires Lookup(ps, id).status == StatusFound
    ensures Lookup(ps + [p], id) == Lookup(ps, id)
  {
    LookupAfterAppend(ps, p, id);
  }

  /** After a create, its ID is always found, and it is the new record when no earlier record had that ID. */
  lemma CreatedIsFound(ps: seq<Payment>, p: Payment)
    ensures Lookup(ps + [p], p.id).status == StatusFound
    ensures !HasID(ps, p.id) ==> Lookup(ps + [p], p.id) == Response(StatusFound, JsonPayment(p))
  {
    LookupAfterAppend(ps, p, p.id);
  }
}
