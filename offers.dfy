/** The list transforms the data service applies to the cached offer
    collection: prepend a new offer, filter one id out, and map the
    status of one id to APPROVED. */
module Offers {
  import opened Types
  import Seqs

  /** The ids present in a collection. */
  function Ids(s: seq<Offer>): set<string>
  {
    set o | o in s :: o.id
  }

  /** No two offers of the collection share an id. */
  ghost predicate UniqueIds(s: seq<Offer>)
  {
    forall i, j :: 0 <= i < j < |s| ==> s[i].id != s[j].id
  }

  // ------------------------------------------------------------ create

  /** The offer `addOffer` builds from the caller's fields, a generated id
      and the creation time: it carries every caller field unchanged, the
      given id and time, status PENDING, reputation 0 and verified false. */
  function NewOffer(d: OfferDraft, id: string, createdAt: string): (o: Offer)
    ensures DraftOf(o) == d
    ensures o.id == id && o.createdAt == createdAt
    ensures o.status == Pending && o.reputation == Some(0) && o.verified == Some(false)
  {
    Offer(id, d.offerType, d.title, d.description, d.asset, d.price, d.location,
          d.category, createdAt, d.contactInfo, d.nickname, Pending, Some(0), Some(false))
  }

  /** The caller-supplied fields of an offer. */
  function DraftOf(o: Offer): OfferDraft
  {
    OfferDraft(o.offerType, o.title, o.asset, o.price, o.location, o.category,
               o.description, o.contactInfo, o.nickname)
  }

  /** Prepending an offer with a fresh id keeps the ids unique. */
  lemma PrependKeepsUnique(o: Offer, s: seq<Offer>)
    requires UniqueIds(s) && o.id !in Ids(s)
    ensures UniqueIds([o] + s)
    ensures Ids([o] + s) == {o.id} + Ids(s)
  {
    var t := [o] + s;
    forall i, j | 0 <= i < j < |t|
      ensures t[i].id != t[j].id
    {
      if i == 0 {
        assert t[j] in s;
      }
    }
  }

  // ------------------------------------------------------------ delete

  /** `offers.filter(o => o.id !== id)`. */
  function WithoutId(s: seq<Offer>, id: string): (r: seq<Offer>)
    ensures forall o :: o in r <==> o in s && o.id != id
    ensures Seqs.Subsequence(r, s)
  {
    Seqs.Filter(s, (o: Offer) => o.id != id)
  }

  /** A subsequence of a collection with unique ids has unique ids. */
  lemma {:induction false} SubsequenceKeepsUnique(a: seq<Offer>, b: seq<Offer>)
    requires Seqs.Subsequence(a, b) && UniqueIds(b)
    ensures UniqueIds(a)
    decreases |b|
  {
    if b != [] {
      assert UniqueIds(b[1..]) by {
        forall i, j | 0 <= i < j < |b[1..]|
          ensures b[1..][i].id != b[1..][j].id
        {
          assert b[1..][i] == b[i + 1] && b[1..][j] == b[j + 1];
        }
      }
      if a != [] && a[0] == b[0] && Seqs.Subsequence(a[1..], b[1..]) {
        SubsequenceKeepsUnique(a[1..], b[1..]);
        Seqs.SubsequenceIn(a[1..], b[1..]);
        forall i, j | 0 <= i < j < |a|
          ensures a[i].id != a[j].id
        {
          if i == 0 {
            assert a[j] == a[1..][j - 1];
            assert a[j] in b[1..];
            var k :| 0 <= k < |b[1..]| && b[1..][k] == a[j];
            assert b[k + 1] == a[j];
          } else {
            assert a[i] == a[1..][i - 1] && a[j] == a[1..][j - 1];
          }
        }
      } else {
        SubsequenceKeepsUnique(a, b[1..]);
      }
    }
  }

  /** After deleting `id` no offer has it; every other offer stays, in its
      relative order; deleting an absent id changes nothing; unique ids stay
      unique. */
  lemma DeleteEffect(s: seq<Offer>, id: string)
    ensures id !in Ids(WithoutId(s, id))
    ensures forall o :: o in WithoutId(s, id) <==> o in s && o.id != id
    ensures Seqs.Subsequence(WithoutId(s, id), s)
    ensures forall o :: multiset(WithoutId(s, id))[o] == if o.id != id then multiset(s)[o] else 0
    ensures id !in Ids(s) ==> WithoutId(s, id) == s
    ensures UniqueIds(s) ==> UniqueIds(WithoutId(s, id))
  {
    Seqs.FilterCounts(s, (o: Offer) => o.id != id);
    if id !in Ids(s) {
      Seqs.FilterKeepsAll(s, (o: Offer) => o.id != id);
    }
    if UniqueIds(s) {
      SubsequenceKeepsUnique(WithoutId(s, id), s);
    }
  }

  // ------------------------------------------------------------ approve

  /** `o.id === id ? { ...o, status: 'APPROVED' } : o`. */
  function ApproveIfId(o: Offer, id: string): Offer
  {
    if o.id == id then o.(status := Approved) else o
  }

  /** `offers.map(...)` with `ApproveIfId`. */
  function ApproveAll(s: seq<Offer>, id: string): (r: seq<Offer>)
    ensures |r| == |s|
    ensures forall i :: 0 <= i < |s| ==> r[i].id == s[i].id
    ensures forall i :: 0 <= i < |s| ==> r[i].status == if s[i].id == id then Approved else s[i].status
  {
    seq(|s|, i requires 0 <= i < |s| => ApproveIfId(s[i], id))
  }

  /** Approval keeps length, order and every offer's other fields; offers
      with the id end APPROVED, all others are untouched; ids do not
      change. */
  lemma ApproveEffect(s: seq<Offer>, id: string)
    ensures |ApproveAll(s, id)| == |s|
    ensures forall i :: 0 <= i < |s| && s[i].id == id ==> ApproveAll(s, id)[i].status == Approved
    ensures forall i :: 0 <= i < |s| ==> ApproveAll(s, id)[i].(status := s[i].status) == s[i]
    ensures forall i :: 0 <= i < |s| && s[i].id != id ==> ApproveAll(s, id)[i] == s[i]
    ensures Ids(ApproveAll(s, id)) == Ids(s)
    ensures UniqueIds(s) ==> UniqueIds(ApproveAll(s, id))
  {
    var r := ApproveAll(s, id);
    forall x | x in Ids(r) ensures x in Ids(s) {
      var k :| 0 <= k < |r| && r[k].id == x;
      assert s[k] in s;
    }
    forall x | x in Ids(s) ensures x in Ids(r) {
      var k :| 0 <= k < |s| && s[k].id == x;
      assert r[k] in r;
    }
  }

  /** Approving twice is approving once. */
  lemma ApproveIdempotent(s: seq<Offer>, id: string)
    ensures ApproveAll(ApproveAll(s, id), id) == ApproveAll(s, id)
  {
  }

  /** Approving an id that is absent changes nothing. */
  lemma ApproveAbsent(s: seq<Offer>, id: string)
    requires id !in Ids(s)
    ensures ApproveAll(s, id) == s
  {
    assert forall i :: 0 <= i < |s| ==> s[i] in s;
  }
}
