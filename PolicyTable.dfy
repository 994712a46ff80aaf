/**
 * The policy management table: the policies of the store are turned into display
 * rows (amounts as en-US grouped dollar figures, terms with a " years" suffix), and
 * the component keeps the 1-based page and the page size that it sends to the server,
 * while the grid itself counts pages from 0.
 */
module PolicyTable {
  import opened Common
  import opened Strings
  import opened PolicySlice

  /** A row of the grid: every field is display text. */
  datatype DisplayRow = DisplayRow(
    id: string, dob: string, gender: string,
    sumAssured: string, modalPremium: string, premiumFrequency: string,
    pt: string, ppt: string)

  /** `$${parseFloat(n).toLocaleString()}` for a whole number, in the en-US locale. */
  function FormatAmount(n: nat): (r: string)
    ensures |r| > 0 && r[0] == '$'
  {
    "$" + GroupThousands(NatToString(n))
  }

  const YearsSuffix := " years"

  /** `${n} years` */
  function FormatYears(n: nat): (r: string)
    ensures |r| > |YearsSuffix| && r[|r| - |YearsSuffix|..] == YearsSuffix
  {
    NatToString(n) + YearsSuffix
  }

  /** One row of `formatPolicies`: identity, date and labels are copied unchanged. */
  function FormatPolicy(p: Policy): (r: DisplayRow)
    ensures r.id == p.id && r.dob == p.dob && r.gender == p.gender
    ensures r.premiumFrequency == p.premiumFrequency
  {
    DisplayRow(p.id, p.dob, p.gender,
               FormatAmount(p.sumAssured), FormatAmount(p.modalPremium), p.premiumFrequency,
               FormatYears(p.pt), FormatYears(p.ppt))
  }

  /** `formatPolicies`: one row per policy, in the same order. */
  function FormatPolicies(ps: seq<Policy>): (rows: seq<DisplayRow>)
    ensures |rows| == |ps|
    ensures forall i :: 0 <= i < |ps| ==> rows[i] == FormatPolicy(ps[i])
  {
    seq(|ps|, i requires 0 <= i < |ps| => FormatPolicy(ps[i]))
  }

  /** Row ids are those of the policies, so distinct policy ids give distinct grid rows. */
  lemma RowIdsArePolicyIds(ps: seq<Policy>)
    requires forall i, j :: 0 <= i < j < |ps| ==> ps[i].id != ps[j].id
    ensures var rows := FormatPolicies(ps);
      forall i, j :: 0 <= i < j < |rows| ==> rows[i].id != rows[j].id
  {
    var rows := FormatPolicies(ps);
    forall i, j | 0 <= i < j < |rows|
      ensures rows[i].id != rows[j].id
    {
      assert rows[i].id == ps[i].id && rows[j].id == ps[j].id;
    }
  }

  // ---------------------------------------------------------------- grid pagination

  /** `x || d` for a number: zero falls back to the default. */
  function NumberOr(x: int, d: int): (r: int)
    ensures x != 0 ==> r == x
    ensures x == 0 ==> r == d
  {
    if x != 0 then x else d
  }

  const DefaultPage := 1
  const DefaultPageSize := 5

  /** The grid's own pagination model: `page` counts from 0. */
  datatype GridModel = GridModel(page: int, pageSize: int)

  /** `rowCount`: the server's total, or 0 when there is no pagination or the total is zero. */
  function RowCount(p: Option<Pagination>): (r: int)
    ensures p.Some? ==> r == p.value.totalItems
    ensures p.None? ==> r == 0
  {
    if p.Some? then NumberOr(p.value.totalItems, 0) else 0
  }

  class TableState {
    /** The page requested from the server, counted from 1. */
    var page: int
    var pageSize: int

    /** `initialState.pagination.paginationModel` handed to the grid. */
    function Model(): GridModel
      reads this
    {
      GridModel(page - 1, pageSize)
    }

    /** `useState(pagination?.currentPage || 1)` and `useState(pagination?.itemsPerPage || 5)`. */
    constructor (p: Option<Pagination>)
      ensures p.Some? && p.value.currentPage != 0 ==> page == p.value.currentPage
      ensures p.Some? && p.value.itemsPerPage != 0 ==> pageSize == p.value.itemsPerPage
      ensures (p.None? || p.value.currentPage == 0) ==> page == DefaultPage
      ensures (p.None? || p.value.itemsPerPage == 0) ==> pageSize == DefaultPageSize
      ensures page != 0 && pageSize != 0
    {
      page := if p.Some? then NumberOr(p.value.currentPage, DefaultPage) else DefaultPage;
      pageSize := if p.Some? then NumberOr(p.value.itemsPerPage, DefaultPageSize) else DefaultPageSize;
    }

    /** `handlePageChange`: the grid's 0-based page becomes the 1-based page sent to the server,
        so the model handed back to the grid is the one it reported. */
    method HandlePageChange(m: GridModel)
      modifies this
      ensures page == m.page + 1 && pageSize == m.pageSize
      ensures Model() == m
    {
      page := m.page + 1;
      pageSize := m.pageSize;
    }
  }
}
