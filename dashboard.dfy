/** The reception dashboard of `app/dashboard/page.tsx`: an in-memory list of
    admitted patients and a list of registered visits, changed by the admission
    and visit-registration handlers, with a name search over the patients. */
module DashboardPage {
  import opened Text
  import opened Seqs

  datatype Option<T> = None | Some(value: T)

  datatype Situacao = Internado | Alta

  datatype Paciente = Paciente(id: int, nome: string, quarto: string, leito: string, situacao: Situacao)

  datatype Visita = Visita(
    id: int,
    pacienteId: int,
    pacienteNome: string,
    visitanteNome: string,
    visitanteDoc: string,
    dataHora: string)

  /** The fields of the admission form. */
  datatype NovoPaciente = NovoPaciente(nome: string, quarto: string, leito: string)

  const FORMULARIO_VAZIO := NovoPaciente("", "", "")

  /** The patients the page starts with. */
  const DADOS_INICIAIS: seq<Paciente> := [
    Paciente(1, "João da Silva", "101", "A", Internado),
    Paciente(2, "Maria Oliveira", "102", "B", Internado)
  ]

  /** The patient's lower-cased name contains the lower-cased search text. */
  predicate CorrespondeBusca(p: Paciente, busca: string) {
    Includes(Lower(p.nome), Lower(busca))
  }

  /** The patients listed under the search box, in list order. */
  function PacientesFiltrados(pacientes: seq<Paciente>, busca: string): (r: seq<Paciente>)
    ensures |r| <= |pacientes|
    ensures forall p :: p in r <==> p in pacientes && CorrespondeBusca(p, busca)
  {
    Filter(pacientes, p => CorrespondeBusca(p, busca))
  }

  /** A click on a listed patient selects it only when it is admitted. */
  predicate Selecionavel(p: Paciente) {
    p.situacao == Internado
  }

  /** The record an admission creates from the form. */
  function NovoRegistro(id: int, form: NovoPaciente): (p: Paciente)
    ensures Selecionavel(p)
    ensures p.nome == form.nome && p.quarto == form.quarto && p.leito == form.leito
  {
    Paciente(id, form.nome, form.quarto, form.leito, Internado)
  }

  predicate TodosInternados(pacientes: seq<Paciente>) {
    forall p :: p in pacientes ==> Selecionavel(p)
  }

  /** Some patient of the list has the visit's patient id and name. */
  predicate Referencia(pacientes: seq<Paciente>, v: Visita) {
    exists p :: p in pacientes && p.id == v.pacienteId && p.nome == v.pacienteNome
  }

  predicate VisitasReferenciam(pacientes: seq<Paciente>, visitas: seq<Visita>) {
    forall v :: v in visitas ==> Referencia(pacientes, v)
  }

  predicate SelecaoValida(pacientes: seq<Paciente>, selecionado: Option<Paciente>) {
    selecionado.Some? ==> selecionado.value in pacientes && Selecionavel(selecionado.value)
  }

  /** The search keeps exactly the matching patients and their order. */
  lemma PacientesFiltradosEmOrdem(pacientes: seq<Paciente>, busca: string)
    ensures IsSubsequence(PacientesFiltrados(pacientes, busca), pacientes)
  {
    FilterIsSubsequence(pacientes, p => CorrespondeBusca(p, busca));
  }

  /** An empty search lists every patient. */
  lemma BuscaVaziaMantemTodos(pacientes: seq<Paciente>)
    ensures PacientesFiltrados(pacientes, "") == pacientes
  {
    forall p | p in pacientes ensures CorrespondeBusca(p, "") {
      IncludesEmpty(Lower(p.nome));
    }
    FilterKeepsAll(pacientes, p => CorrespondeBusca(p, ""));
  }

  /** The search ignores the case of the search text. */
  lemma BuscaIgnoraCaixa(pacientes: seq<Paciente>, busca: string)
    ensures PacientesFiltrados(pacientes, Lower(busca)) == PacientesFiltrados(pacientes, busca)
  {
    LowerIdempotent(busca);
    FilterAgreeing(pacientes, p => CorrespondeBusca(p, Lower(busca)), p => CorrespondeBusca(p, busca));
  }

  /** Search texts that differ only in ASCII case list the same patients. */
  lemma BuscaIndependeDaCaixa(pacientes: seq<Paciente>, busca: string, busca': string)
    requires SameIgnoringCase(busca, busca')
    ensures PacientesFiltrados(pacientes, busca) == PacientesFiltrados(pacientes, busca')
  {
    LowerEqualIffSameIgnoringCase(busca, busca');
    FilterAgreeing(pacientes, p => CorrespondeBusca(p, busca), p => CorrespondeBusca(p, busca'));
  }

  /** A newly admitted patient heads the list and is found by its own name, first. */
  lemma NovoPacienteEncontrado(pacientes: seq<Paciente>, novo: Paciente)
    ensures PacientesFiltrados([novo] + pacientes, novo.nome)[0] == novo
  {
  }

  /** Prepending an admitted patient keeps every patient admitted and every visit resolvable. */
  lemma AdmissaoPreservaInvariante(pacientes: seq<Paciente>, visitas: seq<Visita>, novo: Paciente)
    requires TodosInternados(pacientes) && VisitasReferenciam(pacientes, visitas)
    requires Selecionavel(novo)
    ensures TodosInternados([novo] + pacientes)
    ensures VisitasReferenciam([novo] + pacientes, visitas)
  {
  }

  /** A visit copied from a listed patient resolves; the older visits still do. */
  lemma VisitaPreservaInvariante(pacientes: seq<Paciente>, visitas: seq<Visita>, p: Paciente, v: Visita)
    requires VisitasReferenciam(pacientes, visitas)
    requires p in pacientes && v.pacienteId == p.id && v.pacienteNome == p.nome
    ensures VisitasReferenciam(pacientes, [v] + visitas)
  {
  }

  /** The `Dashboard` component's state; each method is one of its handlers. */
  class Dashboard {
    var pacientes: seq<Paciente>
    var visitas: seq<Visita>
    var busca: string
    var pacienteSelecionado: Option<Paciente>
    var visitanteNome: string
    var visitanteDoc: string
    var sucesso: bool
    var modalAberto: bool
    var novoPaciente: NovoPaciente

    /** Every patient is admitted, the selection is a listed admitted patient,
        and every visit names a listed patient. */
    predicate Valid()
      reads this
    {
      && TodosInternados(pacientes)
      && SelecaoValida(pacientes, pacienteSelecionado)
      && VisitasReferenciam(pacientes, visitas)
    }

    constructor ()
      ensures Valid()
      ensures pacientes == DADOS_INICIAIS && visitas == []
      ensures busca == "" && pacienteSelecionado == None
      ensures visitanteNome == "" && visitanteDoc == ""
      ensures !sucesso && !modalAberto && novoPaciente == FORMULARIO_VAZIO
    {
      pacientes := DADOS_INICIAIS;
      visitas := [];
      busca := "";
      pacienteSelecionado := None;
      visitanteNome := "";
      visitanteDoc := "";
      sucesso := false;
      modalAberto := false;
      novoPaciente := FORMULARIO_VAZIO;
    }

    /** `handleInternarPaciente`: with a name and a room, put an admitted record on
        top of the list, clear and close the form and select the new patient.
        `agora` stands for `Date.now()`. */
    method InternarPaciente(agora: int)
      requires Valid()
      modifies this
      ensures Valid()
      ensures old(novoPaciente.nome) == "" || old(novoPaciente.quarto) == "" ==> unchanged(this)
      ensures old(novoPaciente.nome) != "" && old(novoPaciente.quarto) != "" ==>
        && pacientes == [NovoRegistro(agora, old(novoPaciente))] + old(pacientes)
        && novoPaciente == FORMULARIO_VAZIO
        && !modalAberto
        && pacienteSelecionado == Some(pacientes[0])
        && visitas == old(visitas) && busca == old(busca)
        && visitanteNome == old(visitanteNome) && visitanteDoc == old(visitanteDoc)
        && sucesso == old(sucesso)
    {
      if novoPaciente.nome == "" || novoPaciente.quarto == "" {
        return;
      }
      var novo := NovoRegistro(agora, novoPaciente);
      AdmissaoPreservaInvariante(pacientes, visitas, novo);
      pacientes := [novo] + pacientes;
      novoPaciente := FORMULARIO_VAZIO;
      modalAberto := false;
      pacienteSelecionado := Some(novo);
    }

    /** `handleRegistrarVisita`: with a patient selected, put a visit copied from it
        and from the visitor fields on top of the visits and show the success panel.
        `agora` and `dataHora` stand for `Date.now()` and the formatted clock. */
    method RegistrarVisita(agora: int, dataHora: string)
      requires Valid()
      modifies this
      ensures Valid()
      ensures old(pacienteSelecionado).None? ==> unchanged(this)
      ensures old(pacienteSelecionado).Some? ==>
        && visitas == [Visita(agora, old(pacienteSelecionado).value.id, old(pacienteSelecionado).value.nome,
                              old(visitanteNome), old(visitanteDoc), dataHora)] + old(visitas)
        && sucesso
        && pacientes == old(pacientes) && pacienteSelecionado == old(pacienteSelecionado)
        && busca == old(busca) && visitanteNome == old(visitanteNome) && visitanteDoc == old(visitanteDoc)
        && modalAberto == old(modalAberto) && novoPaciente == old(novoPaciente)
    {
      if pacienteSelecionado.None? {
        return;
      }
      var p := pacienteSelecionado.value;
      var v := Visita(agora, p.id, p.nome, visitanteNome, visitanteDoc, dataHora);
      VisitaPreservaInvariante(pacientes, visitas, p, v);
      visitas := [v] + visitas;
      sucesso := true;
    }

    /** The reset that `handleRegistrarVisita` schedules two seconds later. */
    method ResetAposRegistro()
      requires Valid()
      modifies this
      ensures Valid()
      ensures !sucesso && visitanteNome == "" && visitanteDoc == ""
      ensures pacienteSelecionado == None && busca == ""
      ensures pacientes == old(pacientes) && visitas == old(visitas)
      ensures modalAberto == old(modalAberto) && novoPaciente == old(novoPaciente)
    {
      sucesso := false;
      visitanteNome := "";
      visitanteDoc := "";
      pacienteSelecionado := None;
      busca := "";
    }

    /** A click on a listed patient. The list is shown only while nothing is selected. */
    method Selecionar(p: Paciente)
      requires Valid()
      requires pacienteSelecionado == None && p in PacientesFiltrados(pacientes, busca)
      modifies this
      ensures Valid()
      ensures pacienteSelecionado == if Selecionavel(p) then Some(p) else None
      ensures pacientes == old(pacientes) && visitas == old(visitas) && busca == old(busca)
      ensures visitanteNome == old(visitanteNome) && visitanteDoc == old(visitanteDoc)
      ensures sucesso == old(sucesso) && modalAberto == old(modalAberto) && novoPaciente == old(novoPaciente)
    {
      if Selecionavel(p) {
        pacienteSelecionado := Some(p);
      }
    }

    /** The "Voltar" button of the selected-patient card. */
    method Voltar()
      requires Valid()
      modifies this`pacienteSelecionado
      ensures Valid()
      ensures pacienteSelecionado == None
    {
      pacienteSelecionado := None;
    }

    /** Typing in the search box, which is disabled while a patient is selected. */
    method Buscar(texto: string)
      requires Valid()
      requires pacienteSelecionado == None
      modifies this`busca
      ensures Valid()
      ensures busca == texto
    {
      busca := texto;
    }

    /** Typing in the visitor's name and document fields. */
    method EditarVisitante(nome: string, doc: string)
      requires Valid()
      modifies this`visitanteNome, this`visitanteDoc
      ensures Valid()
      ensures visitanteNome == nome && visitanteDoc == doc
    {
      visitanteNome := nome;
      visitanteDoc := doc;
    }

    /** Opening ("Nova Internação", "Cadastrar") or closing (X) the admission form. */
    method DefinirModal(aberto: bool)
      requires Valid()
      modifies this`modalAberto
      ensures Valid()
      ensures modalAberto == aberto
    {
      modalAberto := aberto;
    }

    /** Typing in the admission form's fields. */
    method EditarNovoPaciente(form: NovoPaciente)
      requires Valid()
      modifies this`novoPaciente
      ensures Valid()
      ensures novoPaciente == form
    {
      novoPaciente := form;
    }
  }

  /** Admitting a patient and registering a visitor for it, then the reset. */
  method CenarioRecepcao()
  {
    var d := new Dashboard();
    d.DefinirModal(true);
    d.EditarNovoPaciente(NovoPaciente("Ana", "101", "A"));
    d.InternarPaciente(1000);
    assert d.pacientes == [Paciente(1000, "Ana", "101", "A", Internado)] + DADOS_INICIAIS;
    assert d.pacienteSelecionado == Some(d.pacientes[0]) && !d.modalAberto;
    d.EditarVisitante("Bruno", "12345");
    d.RegistrarVisita(1001, "10/02/2025 14:30:00");
    assert d.visitas == [Visita(1001, 1000, "Ana", "Bruno", "12345", "10/02/2025 14:30:00")];
    assert d.sucesso;
    d.ResetAposRegistro();
    BuscaVaziaMantemTodos(d.pacientes);
    assert PacientesFiltrados(d.pacientes, d.busca) == d.pacientes;
    assert d.pacienteSelecionado == None && |d.visitas| == 1;
  }
}
