/** The visit history page of `app/historico/page.tsx`: a fixed list of visits,
    a filter on patient or visitor name, a total and an empty-result message. */
module HistoricoPage {
  import opened Text
  import opened Seqs

  datatype Visita = Visita(id: int, paciente: string, visitante: string, doc: string, data: string, hora: string)

  /** The visits the page holds; nothing ever replaces them. */
  const VISITAS: seq<Visita> := [
    Visita(1, "João da Silva", "Ricardo Mello", "123.456.789-00", "10/02/2025", "14:30"),
    Visita(2, "Maria Oliveira", "Ana Paula", "987.654.321-11", "10/02/2025", "15:00"),
    Visita(3, "João da Silva", "Carla Dias", "555.444.333-22", "09/02/2025", "09:15")
  ]

  /** The lower-cased patient or visitor name contains the lower-cased filter. */
  predicate Corresponde(v: Visita, filtro: string) {
    Includes(Lower(v.paciente), Lower(filtro)) || Includes(Lower(v.visitante), Lower(filtro))
  }

  /** The visits shown for a filter, in list order. */
  function VisitasFiltradas(visitas: seq<Visita>, filtro: string): (r: seq<Visita>)
    ensures |r| <= |visitas|
    ensures forall v :: v in r <==> v in visitas && Corresponde(v, filtro)
  {
    Filter(visitas, v => Corresponde(v, filtro))
  }

  /** What the page shows: the listed visits, the total, and whether the
      "no records" message appears. */
  datatype Tela = Tela(registros: seq<Visita>, total: nat, nenhumRegistro: bool)

  function Exibir(visitas: seq<Visita>, filtro: string): (t: Tela)
    ensures t.total == |visitas|
    ensures t.nenhumRegistro <==> forall v :: v in visitas ==> !Corresponde(v, filtro)
    ensures forall v :: v in t.registros <==> v in visitas && Corresponde(v, filtro)
  {
    var registros := VisitasFiltradas(visitas, filtro);
    assert registros != [] ==> registros[0] in registros;
    Tela(registros, |visitas|, |registros| == 0)
  }

  /** The listed visits keep the list's order. */
  lemma VisitasFiltradasEmOrdem(visitas: seq<Visita>, filtro: string)
    ensures IsSubsequence(VisitasFiltradas(visitas, filtro), visitas)
  {
    FilterIsSubsequence(visitas, v => Corresponde(v, filtro));
  }

  /** An empty filter shows every visit. */
  lemma FiltroVazioMostraTodas(visitas: seq<Visita>)
    ensures VisitasFiltradas(visitas, "") == visitas
  {
    forall v | v in visitas ensures Corresponde(v, "") {
      IncludesEmpty(Lower(v.paciente));
    }
    FilterKeepsAll(visitas, v => Corresponde(v, ""));
  }

  /** The filter ignores the case of the filter text. */
  lemma FiltroIgnoraCaixa(visitas: seq<Visita>, filtro: string)
    ensures VisitasFiltradas(visitas, Lower(filtro)) == VisitasFiltradas(visitas, filtro)
  {
    LowerIdempotent(filtro);
    FilterAgreeing(visitas, v => Corresponde(v, Lower(filtro)), v => Corresponde(v, filtro));
  }

  /** Filter texts that differ only in ASCII case show the same visits. */
  lemma FiltroIndependeDaCaixa(visitas: seq<Visita>, filtro: string, filtro': string)
    requires SameIgnoringCase(filtro, filtro')
    ensures VisitasFiltradas(visitas, filtro) == VisitasFiltradas(visitas, filtro')
  {
    LowerEqualIffSameIgnoringCase(filtro, filtro');
    FilterAgreeing(visitas, v => Corresponde(v, filtro), v => Corresponde(v, filtro'));
  }

  /** The total shown is that of the whole list, whatever the filter. */
  lemma TotalIndependeDoFiltro(filtro1: string, filtro2: string)
    ensures Exibir(VISITAS, filtro1).total == Exibir(VISITAS, filtro2).total == 3
  {
  }

  /** A filter longer than every name shows nothing and the message appears. */
  lemma FiltroLongoSemRegistros(visitas: seq<Visita>, filtro: string)
    requires forall v :: v in visitas ==> |filtro| > |v.paciente| && |filtro| > |v.visitante|
    ensures Exibir(visitas, filtro).registros == []
    ensures Exibir(visitas, filtro).nenhumRegistro
  {
    forall v | v in visitas ensures !Corresponde(v, filtro) {
      IncludesNeedsRoom(Lower(v.paciente), Lower(filtro));
      IncludesNeedsRoom(Lower(v.visitante), Lower(filtro));
    }
  }
}
