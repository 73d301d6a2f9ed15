/** The searchable picker for a company's primary activity code (CNAE). The
    catalogue itself is data the model takes as a parameter. */
module CnaeSelect {
  import opened Seqs
  import Text
  import ClienteForm

  datatype CnaeOption = CnaeOption(codigo: string, descricao: string)

  /** Entries shown when the query is empty. */
  const InitialCap := 50
  /** Most entries a search shows. */
  const ResultCap := 100

  /** The picker's own state: popover open, query text, entries shown. */
  datatype Picker = Picker(open: bool, query: string, filtradas: seq<CnaeOption>)

  /** A pick reported to the form through `onSelect`. */
  datatype Selection = Selection(codigo: string, descricao: string)

  function Min(a: int, b: int): int {
    if a <= b then a else b
  }

  /** The search predicate: both parts present, and the lowered query found
      in the lowered code or the lowered description. */
  predicate Matches(q: string, opt: CnaeOption) {
    && opt.codigo != "" && opt.descricao != ""
    && (Text.Includes(Text.ToLower(opt.codigo), q) || Text.Includes(Text.ToLower(opt.descricao), q))
  }

  /** Every catalogue entry matching the query, in catalogue order. */
  function AllMatches(catalogue: seq<CnaeOption>, query: string): seq<CnaeOption> {
    Filter(catalogue, (opt: CnaeOption) => Matches(Text.ToLower(query), opt))
  }

  /** The list `handleSearch` shows for a query. */
  function Search(catalogue: seq<CnaeOption>, query: string): (r: seq<CnaeOption>)
    ensures IsSubseq(r, catalogue)
    ensures query == "" ==> r == catalogue[..Min(InitialCap, |catalogue|)]
    ensures query != "" ==>
              && |r| == Min(ResultCap, |AllMatches(catalogue, query)|)
              && r == AllMatches(catalogue, query)[..|r|]
              && (forall i :: 0 <= i < |r| ==> Matches(Text.ToLower(query), r[i]))
              && (|r| < ResultCap ==>
                    forall i :: 0 <= i < |catalogue| && Matches(Text.ToLower(query), catalogue[i]) ==> catalogue[i] in r)
  {
    if query == "" then
      SubseqRefl(catalogue);
      PrefixSubseq(catalogue, catalogue, Min(InitialCap, |catalogue|));
      catalogue[..Min(InitialCap, |catalogue|)]
    else
      var all := AllMatches(catalogue, query);
      FilterIsSubseq(catalogue, (opt: CnaeOption) => Matches(Text.ToLower(query), opt));
      PrefixSubseq(all, catalogue, Min(ResultCap, |all|));
      assert |all| < ResultCap ==> all[..Min(ResultCap, |all|)] == all;
      all[..Min(ResultCap, |all|)]
  }

  /** `handleSearch`: the query is kept and the shown list recomputed. */
  function HandleSearch(p: Picker, catalogue: seq<CnaeOption>, query: string): (r: Picker)
    ensures r.open == p.open && r.query == query
    ensures IsSubseq(r.filtradas, catalogue)
    ensures query != "" ==> |r.filtradas| <= ResultCap
    ensures r.filtradas == Search(catalogue, query)
    ensures r.(query := p.query, filtradas := p.filtradas) == p
  {
    p.(query := query, filtradas := Search(catalogue, query))
  }

  /** `handleOpenChange`: opening clears the query and shows the first entries. */
  function HandleOpenChange(p: Picker, catalogue: seq<CnaeOption>, newOpen: bool): (r: Picker)
    ensures r.open == newOpen
    ensures !newOpen ==> r.query == p.query && r.filtradas == p.filtradas
    ensures newOpen ==> r.query == "" && r.filtradas == catalogue[..Min(InitialCap, |catalogue|)]
  {
    if newOpen then Picker(true, "", Search(catalogue, "")) else p.(open := false)
  }

  /** `handleSelect`: reports the pick, closes the popover and clears the query. */
  function HandleSelect(p: Picker, codigo: string, descricao: string): (r: (Picker, Selection))
    ensures r.1 == Selection(codigo, descricao)
    ensures !r.0.open && r.0.query == "" && r.0.filtradas == p.filtradas
  {
    (p.(open := false, query := ""), Selection(codigo, descricao))
  }

  /** `handleClear`: reports an empty pick and clears the query; the popover stays as it was. */
  function HandleClear(p: Picker): (r: (Picker, Selection))
    ensures r.1 == Selection("", "")
    ensures r.0.open == p.open && r.0.query == "" && r.0.filtradas == p.filtradas
  {
    (p.(query := ""), Selection("", ""))
  }

  /** Opening and then typing a query shows only matches of that query, in
      catalogue order, and all of them when there are fewer than the cap. */
  lemma OpenThenSearch(p: Picker, catalogue: seq<CnaeOption>, query: string, opt: CnaeOption)
    requires query != "" && opt in catalogue && Matches(Text.ToLower(query), opt)
    requires |AllMatches(catalogue, query)| < ResultCap
    ensures opt in HandleSearch(HandleOpenChange(p, catalogue, true), catalogue, query).filtradas
  {
  }

  /** Clearing the picker empties the form's primary activity and leaves the rest of the form alone. */
  lemma ClearEmptiesPrimaryActivity(p: Picker, f: ClienteForm.Form)
    ensures var (_, sel) := HandleClear(p);
            var f' := ClienteForm.SelecionarCnae(f, sel.codigo, sel.descricao);
            f'.data.atividadePrincipalCodigo == "" && f'.data.atividadePrincipalDescricao == ""
            && f'.(data := f.data) == f
  {
  }
}
