/**
 * `passes.filter((p) => p.sponsor === id)`: the client-side sponsor filter
 * that both the React hook (src/hooks/usePasses.ts) and the manual-DOM
 * variant (src/main.ts) apply to what the service returns.
 */
module PassFilter {
  import opened Types

  function OfSponsor(passes: seq<SponsorPass>, id: int): (r: seq<SponsorPass>)
    ensures |r| <= |passes|
    ensures forall p :: p in r <==> p in passes && p.sponsor == id
  {
    if passes == [] then []
    else (if passes[0].sponsor == id then [passes[0]] else []) + OfSponsor(passes[1..], id)
  }

  /** Filtering commutes with concatenation: kept passes stay in fetched order. */
  lemma {:induction false} OfSponsorAppend(a: seq<SponsorPass>, b: seq<SponsorPass>, id: int)
    ensures OfSponsor(a + b, id) == OfSponsor(a, id) + OfSponsor(b, id)
  {
    if a == [] {
      assert a + b == b;
    } else {
      assert (a + b)[1..] == a[1..] + b;
      OfSponsorAppend(a[1..], b, id);
    }
  }

  /** Every matching pass is kept as often as it was fetched; every other one is dropped. */
  lemma {:induction false} OfSponsorCounts(passes: seq<SponsorPass>, id: int, p: SponsorPass)
    ensures multiset(OfSponsor(passes, id))[p] == if p.sponsor == id then multiset(passes)[p] else 0
  {
    if passes != [] {
      assert passes == [passes[0]] + passes[1..];
      OfSponsorCounts(passes[1..], id, p);
    }
  }

  /** A list that already belongs to one sponsor passes the filter unchanged. */
  lemma {:induction false} OfSponsorKeepsOwn(passes: seq<SponsorPass>, id: int)
    requires forall i :: 0 <= i < |passes| ==> passes[i].sponsor == id
    ensures OfSponsor(passes, id) == passes
  {
    if passes != [] {
      OfSponsorKeepsOwn(passes[1..], id);
    }
  }

  lemma OfSponsorIdempotent(passes: seq<SponsorPass>, id: int)
    ensures OfSponsor(OfSponsor(passes, id), id) == OfSponsor(passes, id)
  {
    var r := OfSponsor(passes, id);
    assert forall i :: 0 <= i < |r| ==> r[i] in r;
    OfSponsorKeepsOwn(r, id);
  }
}
