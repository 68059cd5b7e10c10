/** The company slice: the list of client companies (which may be missing
    and is then repaired to an empty list), and the company picked for
    editing. Timestamps are the caller's clock reading `now`. */
module Companies {
  import opened Common
  import opened Dates
  import opened Seqs

  /** A company: its id, its two timestamps, and every other key (name,
      industry, contact person, e-mail, periodicity, ...) in `attrs`. */
  datatype Company = Company(id: string, attrs: map<string, string>, createdAt: Date, updatedAt: Date)

  /** An `addCompany` payload: an optional id and the other keys. */
  datatype CompanyDraft = CompanyDraft(id: Option<string>, attrs: map<string, string>)

  /** The keys of an `updateCompany` payload besides `id`. */
  datatype CompanyPatch = CompanyPatch(attrs: map<string, string>, createdAt: Option<Date>)

  function Seed(id: string, name: string, industry: string, contact: string, email: string, loadTime: Date): Company
  {
    Company(id, map["name" := name, "industry" := industry, "contactPerson" := contact, "email" := email],
            loadTime, loadTime)
  }

  /** The five companies the slice starts with, stamped when the module loads. */
  function DefaultCompanies(loadTime: Date): seq<Company>
  {
    [ Seed("tech-corp", "Tech Corp", "Technology", "John Smith", "john@techcorp.com", loadTime),
      Seed("global-inc", "Global Inc", "Manufacturing", "Sarah Johnson", "sarah@globalinc.com", loadTime),
      Seed("startup-ltd", "Startup Ltd", "Software", "Mike Wilson", "mike@startupltd.com", loadTime),
      Seed("enterprise-co", "Enterprise Co", "Consulting", "Lisa Brown", "lisa@enterpriseco.com", loadTime),
      Seed("digital-solutions", "Digital Solutions", "IT Services", "David Lee", "david@digitalsolutions.com", loadTime) ]
  }

  /** The record `addCompany` appends: a generated id unless the payload
      brings one, both timestamps set to `now`. */
  function NewCompany(draft: CompanyDraft, freshId: string, now: Date): (c: Company)
    ensures c.id == (if draft.id.Some? then draft.id.value else freshId)
    ensures c.attrs == draft.attrs && c.createdAt == now && c.updatedAt == now
  {
    Company(Pick(draft.id, freshId), draft.attrs, now, now)
  }

  function IndexOfCompany(cs: seq<Company>, id: string): Option<nat>
  {
    FindIndex(cs, (c: Company) => c.id == id)
  }

  /** `{ ...company, ...updates, updatedAt: now }`. */
  function MergeCompany(c: Company, p: CompanyPatch, now: Date): (r: Company)
    ensures r.id == c.id && r.updatedAt == now
    ensures r.attrs.Keys == c.attrs.Keys + p.attrs.Keys
    ensures forall k :: k in p.attrs ==> r.attrs[k] == p.attrs[k]
    ensures forall k :: k in c.attrs && k !in p.attrs ==> r.attrs[k] == c.attrs[k]
    ensures r.createdAt == if p.createdAt.Some? then p.createdAt.value else c.createdAt
  {
    Company(c.id, c.attrs + p.attrs, Pick(p.createdAt, c.createdAt), now)
  }

  /** `updateCompany({ id, ...updates })` on a present list. */
  function UpdatedCompanies(cs: seq<Company>, id: string, p: CompanyPatch, now: Date): seq<Company>
  {
    match IndexOfCompany(cs, id)
    case None => cs
    case Some(i) => cs[i := MergeCompany(cs[i], p, now)]
  }

  /** The first company with the id takes the patch and the new `updatedAt`
      and keeps its id; every other company is unchanged; an unknown id
      changes nothing. Merging the same patch again changes only `updatedAt`. */
  lemma UpdateCompanyEffect(cs: seq<Company>, id: string, p: CompanyPatch, now: Date, later: Date)
    ensures |UpdatedCompanies(cs, id, p, now)| == |cs|
    ensures IndexOfCompany(cs, id).None? ==> UpdatedCompanies(cs, id, p, now) == cs
    ensures forall i :: IndexOfCompany(cs, id) == Some(i) ==>
              && UpdatedCompanies(cs, id, p, now)[i] == MergeCompany(cs[i], p, now)
              && UpdatedCompanies(cs, id, p, now)[i].id == id
              && (forall j :: 0 <= j < |cs| && j != i ==> UpdatedCompanies(cs, id, p, now)[j] == cs[j])
    ensures forall c :: MergeCompany(MergeCompany(c, p, now), p, later) == MergeCompany(c, p, later)
  {
    forall c
      ensures MergeCompany(MergeCompany(c, p, now), p, later) == MergeCompany(c, p, later)
    {
      var once := MergeCompany(c, p, now);
      assert once.attrs + p.attrs == c.attrs + p.attrs;
    }
  }

  function WithoutCompany(cs: seq<Company>, id: string): seq<Company>
  {
    Filter(cs, (c: Company) => c.id != id)
  }

  /** `deleteCompany(id)` on a present list: no company with the id remains,
      every other one stays as often as it was, in the same order. */
  lemma DeleteCompanyEffect(cs: seq<Company>, more: seq<Company>, id: string)
    ensures forall c :: c in WithoutCompany(cs, id) <==> c in cs && c.id != id
    ensures forall c: Company :: c.id != id ==> multiset(WithoutCompany(cs, id))[c] == multiset(cs)[c]
    ensures WithoutCompany(cs + more, id) == WithoutCompany(cs, id) + WithoutCompany(more, id)
  {
    FilterCount(cs, (c: Company) => c.id != id);
    FilterAppend(cs, more, (c: Company) => c.id != id);
  }

  class CompanySlice {
    var companies: Option<seq<Company>>
    var selectedCompany: Option<Company>

    constructor(loadTime: Date)
      ensures companies == Some(DefaultCompanies(loadTime)) && selectedCompany.None?
    {
      companies := Some(DefaultCompanies(loadTime));
      selectedCompany := None;
    }

    /** `initializeCompanies()`: a missing list becomes empty. */
    method InitializeCompanies()
      modifies this`companies
      ensures companies == Some(old(companies).GetOr([]))
    {
      if companies.None? {
        companies := Some([]);
      }
    }

    /** `addCompany(draft)`: appends exactly one company. */
    method AddCompany(draft: CompanyDraft, freshId: string, now: Date)
      modifies this`companies
      ensures companies == Some(old(companies).GetOr([]) + [NewCompany(draft, freshId, now)])
    {
      var cs := if companies.None? then [] else companies.value;
      companies := Some(cs + [Company(Pick(draft.id, freshId), draft.attrs, now, now)]);
    }

    /** `updateCompany({ id, ...updates })`: a missing list becomes empty and
        nothing else happens. */
    method UpdateCompany(id: string, p: CompanyPatch, now: Date)
      modifies this`companies
      ensures companies == Some(if old(companies).None? then [] else UpdatedCompanies(old(companies).value, id, p, now))
    {
      if companies.None? {
        companies := Some([]);
        return;
      }
      var cs := companies.value;
      var index := IndexOfCompany(cs, id);
      if index.Some? {
        companies := Some(cs[index.value := MergeCompany(cs[index.value], p, now)]);
      }
    }

    /** `deleteCompany(id)`: a missing list becomes empty. */
    method DeleteCompany(id: string)
      modifies this`companies
      ensures companies == Some(if old(companies).None? then [] else WithoutCompany(old(companies).value, id))
    {
      if companies.None? {
        companies := Some([]);
        return;
      }
      companies := Some(Filter(companies.value, (c: Company) => c.id != id));
    }

    /** `selectCompany(company)`. */
    method SelectCompany(company: Option<Company>)
      modifies this`selectedCompany
      ensures selectedCompany == company
    {
      selectedCompany := company;
    }

    /** `clearSelectedCompany()`. */
    method ClearSelectedCompany()
      modifies this`selectedCompany
      ensures selectedCompany.None?
    {
      selectedCompany := None;
    }
  }

  /** `selectCompanies`: the list, or empty when the slice or its list is missing. */
  function SelectCompanies(slice: CompanySlice?): (r: seq<Company>)
    reads slice
    ensures slice == null || slice.companies.None? ==> r == []
    ensures slice != null && slice.companies.Some? ==> r == slice.companies.value
  {
    if slice == null || slice.companies.None? then [] else slice.companies.value
  }

  /** `selectSelectedCompany`. */
  function SelectSelectedCompany(slice: CompanySlice?): (r: Option<Company>)
    reads slice
    ensures slice == null ==> r.None?
    ensures slice != null ==> r == slice.selectedCompany
  {
    if slice == null then None else slice.selectedCompany
  }
}
