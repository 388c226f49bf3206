/** The administrator's dashboard figures: the active-policy, pending-claim
    and agent counts, and the policies-per-state histogram behind the pie
    chart. A policy's `estado` is `None` when the field is missing or null. */
module AdminDashboard {
  import opened Common
  import Models

  // ---------------------------------------------------------------------
  // Counters
  // ---------------------------------------------------------------------

  datatype Stats = Stats(polizasActivas: nat, siniestrosPendientes: nat, totalAgentes: nat)

  /** A policy counts as active when its stored state is `Activa`. */
  predicate EsActiva(e: Option<string>)
    ensures EsActiva(e) <==> e.Some? && Models.EstadoPoliza.Parse(e.value) == Some(Models.Activa)
  {
    e == Some("activa")
  }

  /** A claim is pending while its stored state is `Reportado` or `EnRevision`. */
  predicate EsPendiente(e: string)
    ensures EsPendiente(e) <==> Models.EstadoSiniestro.Parse(e) in {Some(Models.Reportado), Some(Models.EnRevision)}
  {
    e == "reportado" || e == "en_revision"
  }

  /** The three counters: policies in state "activa", claims still
      "reportado" or "en_revision", and the length of the agent list. */
  function KpiStats(polizas: seq<Option<string>>, siniestros: seq<string>, agentes: seq<nat>): (s: Stats)
    ensures s.polizasActivas <= |polizas| && s.siniestrosPendientes <= |siniestros|
    ensures s.totalAgentes == |agentes|
    ensures s.polizasActivas == |Filter(polizas, EsActiva)|
    ensures s.siniestrosPendientes == |Filter(siniestros, EsPendiente)|
  {
    Stats(|Filter(polizas, EsActiva)|, |Filter(siniestros, EsPendiente)|, |agentes|)
  }

  /** The pending claims counted are exactly those in one of the two open
      states. */
  lemma PendientesAreOpenClaims(siniestros: seq<string>, e: string)
    ensures e in Filter(siniestros, EsPendiente) <==> e in siniestros && (e == "reportado" || e == "en_revision")
  {
  }

  // ---------------------------------------------------------------------
  // Histogram
  // ---------------------------------------------------------------------

  /** `poliza.estado || 'Desconocido'`. */
  function EstadoKey(e: Option<string>): (k: string)
    ensures k != ""
    ensures TruthyText(e) ==> k == e.value
    ensures !TruthyText(e) ==> k == "Desconocido"
  {
    OrDefault(e, "Desconocido")
  }

  /** How many policies fall under histogram key `k`. */
  function Occurrences(es: seq<Option<string>>, k: string): (n: nat)
    ensures n <= |es|
  {
    if es == [] then 0
    else Occurrences(es[..|es| - 1], k) + (if EstadoKey(es[|es| - 1]) == k then 1 else 0)
  }

  predicate Distinct(keys: seq<string>) {
    forall i, j :: 0 <= i < j < |keys| ==> keys[i] != keys[j]
  }

  /** The histogram keys in the order the loop first meets them, which is
      the order `Object.keys` lists them in. */
  function DistinctKeys(es: seq<Option<string>>): (keys: seq<string>)
    ensures Distinct(keys)
    ensures forall k :: k in keys <==> Occurrences(es, k) > 0
  {
    if es == [] then []
    else
      var prev := DistinctKeys(es[..|es| - 1]);
      var k := EstadoKey(es[|es| - 1]);
      if k in prev then prev else prev + [k]
  }

  /** The `for` loop that fills `polizasPorEstado`: each key's count is the
      number of policies under it, a key is present exactly when some policy
      falls under it (so every count is at least 1), and the keys come in
      first-seen order. */
  method PolizasPorEstado(es: seq<Option<string>>) returns (counts: map<string, nat>, keys: seq<string>)
    ensures keys == DistinctKeys(es)
    ensures forall k :: k in counts <==> Occurrences(es, k) > 0
    ensures forall k :: k in counts ==> counts[k] == Occurrences(es, k) && counts[k] >= 1
    ensures forall k :: k in counts <==> k in keys
  {
    counts := map[];
    keys := [];
    var i := 0;
    while i < |es|
      invariant 0 <= i <= |es|
      invariant keys == DistinctKeys(es[..i])
      invariant forall k :: k in counts <==> Occurrences(es[..i], k) > 0
      invariant forall k :: k in counts ==> counts[k] == Occurrences(es[..i], k)
    {
      var estado := EstadoKey(es[i]);
      assert es[..i + 1][..i] == es[..i];
      if estado !in counts {
        keys := keys + [estado];
      }
      counts := counts[estado := if estado in counts && counts[estado] != 0 then counts[estado] + 1 else 1];
      i := i + 1;
    }
    assert es[..|es|] == es;
  }

  /** The sum of the counts of `keys`. */
  function SumOccurrences(keys: seq<string>, es: seq<Option<string>>): nat {
    if keys == [] then 0 else Occurrences(es, keys[0]) + SumOccurrences(keys[1..], es)
  }

  lemma {:induction false} SumOccurrencesAppend(keys: seq<string>, k: string, es: seq<Option<string>>)
    ensures SumOccurrences(keys + [k], es) == SumOccurrences(keys, es) + Occurrences(es, k)
  {
    if keys != [] {
      assert (keys + [k])[1..] == keys[1..] + [k];
      SumOccurrencesAppend(keys[1..], k, es);
    }
  }

  /** One more policy adds one to the sum over distinct keys when its key is
      among them, and nothing otherwise. */
  lemma {:induction false} SumOccurrencesSnoc(keys: seq<string>, es: seq<Option<string>>, e: Option<string>)
    requires Distinct(keys)
    ensures SumOccurrences(keys, es + [e]) ==
      SumOccurrences(keys, es) + (if EstadoKey(e) in keys then 1 else 0)
  {
    assert (es + [e])[..|es|] == es;
    if keys != [] {
      assert Distinct(keys[1..]) by {
        forall i, j | 0 <= i < j < |keys[1..]| ensures keys[1..][i] != keys[1..][j] {
          assert keys[1..][i] == keys[i + 1] && keys[1..][j] == keys[j + 1];
        }
      }
      SumOccurrencesSnoc(keys[1..], es, e);
      assert EstadoKey(e) in keys <==> EstadoKey(e) == keys[0] || EstadoKey(e) in keys[1..];
    }
  }

  /** The histogram counts add up to the number of policies. */
  lemma {:induction false} HistogramTotal(es: seq<Option<string>>)
    ensures SumOccurrences(DistinctKeys(es), es) == |es|
  {
    if es != [] {
      var init, e := es[..|es| - 1], es[|es| - 1];
      assert es == init + [e];
      var prev := DistinctKeys(init);
      HistogramTotal(init);
      SumOccurrencesSnoc(prev, init, e);
      var k := EstadoKey(e);
      if k !in prev {
        SumOccurrencesAppend(prev, k, es);
        assert Occurrences(init, k) == 0;
      }
    }
  }

  /** `polizasActivas` is the histogram's count for "activa" (0 when the key
      is absent). */
  lemma {:induction false} ActivasMatchHistogram(es: seq<Option<string>>)
    ensures |Filter(es, EsActiva)| == Occurrences(es, "activa")
  {
    if es != [] {
      ActivasMatchHistogram(es[..|es| - 1]);
    }
  }

  // ---------------------------------------------------------------------
  // Pie chart
  // ---------------------------------------------------------------------

  datatype PieSlice = PieSlice(kind: string, value: nat)

  /** One slice per histogram key, labelled with the upper-cased state. */
  function PieData(keys: seq<string>, counts: map<string, nat>): (r: seq<PieSlice>)
    requires forall k :: k in keys ==> k in counts
    ensures |r| == |keys|
    ensures forall i :: 0 <= i < |keys| ==> r[i] == PieSlice(ToUpper(keys[i]), counts[keys[i]])
  {
    if keys == [] then [] else [PieSlice(ToUpper(keys[0]), counts[keys[0]])] + PieData(keys[1..], counts)
  }

  function SumValues(slices: seq<PieSlice>): nat {
    if slices == [] then 0 else slices[0].value + SumValues(slices[1..])
  }

  /** The slices of the pie add up to the number of policies. */
  lemma PieTotal(es: seq<Option<string>>, counts: map<string, nat>)
    requires forall k :: k in counts <==> Occurrences(es, k) > 0
    requires forall k :: k in counts ==> counts[k] == Occurrences(es, k)
    ensures SumValues(PieData(DistinctKeys(es), counts)) == |es|
  {
    PieMatchesHistogram(DistinctKeys(es), es, counts);
    HistogramTotal(es);
  }

  lemma {:induction false} PieMatchesHistogram(keys: seq<string>, es: seq<Option<string>>, counts: map<string, nat>)
    requires forall k :: k in keys ==> k in counts && counts[k] == Occurrences(es, k)
    ensures SumValues(PieData(keys, counts)) == SumOccurrences(keys, es)
  {
    if keys != [] {
      PieMatchesHistogram(keys[1..], es, counts);
    }
  }
}
