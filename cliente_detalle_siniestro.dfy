/** The client's view of one claim: how far along the four-stage timeline it
    is, the colour of its state tag and of each timeline item, and whether
    the insurer's resolution is shown. */
module ClienteDetalleSiniestro {
  import opened Common
  import Models

  /** `estadoTimeline`: starts at 1 and is overwritten by each matching
      check in turn. */
  method EstadoTimeline(estado: string) returns (step: nat)
    ensures 1 <= step <= 4
    ensures estado == "en_revision" ==> step == 2
    ensures estado == "aprobado" || estado == "rechazado" ==> step == 3
    ensures estado == "pagado" ==> step == 4
    ensures estado !in {"en_revision", "aprobado", "rechazado", "pagado"} ==> step == 1
    ensures ShowResolution(estado) <==> step >= 3
  {
    step := 1;
    if estado == "en_revision" {
      step := 2;
    }
    if estado == "aprobado" || estado == "rechazado" {
      step := 3;
    }
    if estado == "pagado" {
      step := 4;
    }
  }

  /** `getColorEstado`. */
  function ColorEstado(estado: string): (c: string)
    ensures c in {"gold", "green", "red", "blue"}
    ensures c == "red" <==> estado == "rechazado"
    ensures c == "gold" <==> estado == "pagado"
    ensures c == "green" <==> estado == "aprobado"
  {
    if estado == "pagado" then "gold"
    else if estado == "aprobado" then "green"
    else if estado == "rechazado" then "red"
    else "blue"
  }

  /** The colours of the four timeline items (sent, under review,
      resolution, paid) at timeline step `step`. */
  function TimelineColors(step: nat, estado: string): (cs: seq<string>)
    requires 1 <= step <= 4
    ensures |cs| == 4 && cs[0] == "green"
    ensures forall k :: 0 <= k < 4 ==> (cs[k] != "gray" <==> step >= k + 1)
    ensures step >= 3 ==> (cs[2] == "red" <==> estado == "rechazado")
  {
    var cs := [ "green",
      if step >= 2 then "green" else "gray",
      if step >= 3 then (if estado == "rechazado" then "red" else "green") else "gray",
      if step >= 4 then "gold" else "gray" ];
    assert "green"[2] != "gray"[2] && "red"[0] != "gray"[0] && "gold"[1] != "gray"[1];
    cs
  }

  /** The resolution alert is shown for the three resolved states, which
      are exactly the states whose tag is not blue. */
  predicate ShowResolution(estado: string)
    ensures ShowResolution(estado) <==> ColorEstado(estado) != "blue"
  {
    estado == "aprobado" || estado == "rechazado" || estado == "pagado"
  }

  /** The alert type: "error" exactly for a rejected claim. */
  function AlertType(estado: string): (t: string)
    ensures t == "error" <==> estado == "rechazado"
    ensures t != "error" ==> t == "success"
  {
    if estado == "rechazado" then "error" else "success"
  }

  /** The alert text: the resolution, or a fixed remark when there is none. */
  function ResolutionText(resolucion: Option<string>): (t: string)
    ensures t != ""
    ensures TruthyText(resolucion) ==> t == resolucion.value
    ensures !TruthyText(resolucion) ==> t == "Sin comentarios adicionales."
  {
    OrDefault(resolucion, "Sin comentarios adicionales.")
  }

  /** The item that marks the current stage of a resolved claim has the
      colour of the state tag. */
  lemma CurrentItemMatchesTag(estado: string, step: nat)
    requires estado in {"aprobado", "rechazado", "pagado"}
    requires step == (if estado == "pagado" then 4 else 3)
    ensures TimelineColors(step, estado)[step - 1] == ColorEstado(estado)
  {
  }

  /** Of the states a claim can be stored in, the three resolved ones are
      exactly those that show the resolution, and the two open ones exactly
      those with a blue tag. */
  lemma StoredStatesOnTimeline(e: Models.EstadoSiniestro)
    ensures ShowResolution(e.Code()) <==> e in {Models.Aprobado, Models.Rechazado, Models.Pagado}
    ensures ColorEstado(e.Code()) == "blue" <==> e in {Models.Reportado, Models.EnRevision}
  {
  }
}
