/**
 * The backend's scouting agent (backend/agents/scouting_agent.py): a requirement's
 * category picks one of three pools of supplier templates, three to five distinct
 * templates are drawn from it, and each is given every required certification it
 * lacks.
 */
module ScoutingAgent {
  import opened Wrappers
  import opened Text
  import Lookup

  // ---------------------------------------------------------------- category

  datatype Category = OfficeSupplies | RawMaterials | Services

  /**
   * The category mapping, on the lower-cased text: "office" or "supplies" first,
   * then "material" or "raw", then "service"; office supplies otherwise.
   */
  function CategoryOf(category: string): (c: Category)
    ensures var l := Lower(category);
      && (c == RawMaterials <==>
            !Contains(l, "office") && !Contains(l, "supplies") && (Contains(l, "material") || Contains(l, "raw")))
      && (c == Services <==>
            !Contains(l, "office") && !Contains(l, "supplies") && !Contains(l, "material") && !Contains(l, "raw")
            && Contains(l, "service"))
  {
    var l := Lower(category);
    if Contains(l, "office") || Contains(l, "supplies") then OfficeSupplies
    else if Contains(l, "material") || Contains(l, "raw") then RawMaterials
    else if Contains(l, "service") then Services
    else OfficeSupplies
  }

  /** The mapping ignores case. */
  lemma CategoryIgnoresCase(category: string)
    ensures CategoryOf(Lower(category)) == CategoryOf(category)
    ensures CategoryOf(Upper(category)) == CategoryOf(category)
  {
    LowerIdempotent(category);
    LowerOfUpper(category);
  }

  // ------------------------------------------------------------------- pools

  /** A supplier template (the qualification notes are prose and left out). */
  datatype ScoutTemplate = ScoutTemplate(
    name: string,
    email: string,
    phone: Option<string>,
    website: string,
    certifications: seq<string>)

  const OfficePool: seq<ScoutTemplate> := [
    ScoutTemplate("Global Office Solutions Inc.", "contact@globaloffice.com", Some("+1-555-0101"),
                  "https://globaloffice.com", ["ISO 9001", "ISO 14001", "FSC Certified"]),
    ScoutTemplate("Premium Office Supplies Co.", "sales@premiumoffice.com", Some("+1-555-0102"),
                  "https://premiumoffice.com", ["ISO 9001", "OHSAS 18001"]),
    ScoutTemplate("Reliable Business Supplies", "info@reliablesupplies.com", None,
                  "https://reliablesupplies.com", ["ISO 9001"]),
    ScoutTemplate("Eco-Friendly Office Solutions", "contact@ecofriendly.com", Some("+1-555-0104"),
                  "https://ecofriendly.com", ["ISO 9001", "ISO 14001", "Green Business Certified"]),
    ScoutTemplate("Corporate Supply Partners", "procurement@corpsupply.com", Some("+1-555-0105"),
                  "https://corpsupply.com", ["ISO 9001", "ISO 27001"])
  ]

  const RawPool: seq<ScoutTemplate> := [
    ScoutTemplate("Industrial Materials Corp.", "sales@indmaterials.com", Some("+1-555-0201"),
                  "https://indmaterials.com", ["ISO 9001", "ISO 14001", "AS9100"]),
    ScoutTemplate("Premium Materials Solutions", "info@premiummaterials.com", Some("+1-555-0202"),
                  "https://premiummaterials.com", ["ISO 9001", "OHSAS 18001"]),
    ScoutTemplate("Global Sourcing Partners", "contact@globalsourcing.com", Some("+1-555-0203"),
                  "https://globalsourcing.com", ["ISO 9001"])
  ]

  const ServicesPool: seq<ScoutTemplate> := [
    ScoutTemplate("Professional Services Group", "contact@proservices.com", Some("+1-555-0301"),
                  "https://proservices.com", ["ISO 9001", "ISO 27001"]),
    ScoutTemplate("Expert Services Solutions", "sales@expertservices.com", Some("+1-555-0302"),
                  "https://expertservices.com", ["ISO 9001"])
  ]

  function PoolFor(c: Category): seq<ScoutTemplate> {
    match c
    case OfficeSupplies => OfficePool
    case RawMaterials => RawPool
    case Services => ServicesPool
  }

  /** Five office templates, three raw-material ones, and only two for services. */
  lemma PoolSizes()
    ensures |PoolFor(OfficeSupplies)| == 5 && |PoolFor(RawMaterials)| == 3 && |PoolFor(Services)| == 2
  {
  }

  // --------------------------------------------------------------- selection

  /** The largest number of suppliers `randint` may draw for a pool. */
  function MaxCount(poolSize: nat): nat {
    Lookup.Min(5, poolSize)
  }

  predicate Distinct(picks: seq<nat>) {
    forall i, j :: 0 <= i < j < |picks| ==> picks[i] != picks[j]
  }

  /**
   * The random draws of one selection: a count from `randint(3, min(5, n))` and
   * the positions `random.sample` takes (needed only when that range is not empty).
   */
  predicate ValidSelection(poolSize: nat, count: nat, picks: seq<nat>) {
    3 <= MaxCount(poolSize) ==>
      && 3 <= count <= MaxCount(poolSize)
      && |picks| == count
      && (forall i :: 0 <= i < |picks| ==> picks[i] < poolSize)
      && Distinct(picks)
  }

  /** `randint` raising ValueError on the empty range [3, min(5, n)]. */
  datatype ScoutingError = EmptyCountRange

  // ------------------------------------------------------------------- merge

  predicate NoDuplicates(s: seq<string>) {
    forall i, j :: 0 <= i < j < |s| ==> s[i] != s[j]
  }

  /** The certification list after appending, in order, each required one it lacks. */
  function Merged(existing: seq<string>, required: seq<string>): (m: seq<string>)
    decreases |required|
  {
    if required == [] then existing
    else
      var before := Merged(existing, required[..|required| - 1]);
      var cert := required[|required| - 1];
      if cert in before then before else before + [cert]
  }

  /**
   * The merge keeps the existing list as a prefix, ends up holding every required
   * certification, appends only required ones that were absent, and adds no
   * duplicate to a list that had none.
   */
  lemma {:induction false} MergedProperties(existing: seq<string>, required: seq<string>)
    ensures var m := Merged(existing, required);
      && |existing| <= |m| && m[..|existing|] == existing
      && (forall c :: c in required ==> c in m)
      && (forall i :: |existing| <= i < |m| ==> m[i] in required && m[i] !in existing)
      && (NoDuplicates(existing) ==> NoDuplicates(m))
    decreases |required|
  {
    if required != [] {
      var init := required[..|required| - 1];
      MergedProperties(existing, init);
      var before := Merged(existing, init);
      var cert := required[|required| - 1];
      assert required == init + [cert];
      var m := Merged(existing, required);
      forall c | c in required
        ensures c in m
      {
        if c != cert {
          assert c in init;
        }
      }
      if cert !in before {
        assert m == before + [cert];
        forall i | |existing| <= i < |m|
          ensures m[i] in required && m[i] !in existing
        {
          if i < |before| {
            assert m[i] == before[i];
            assert before[i] in init;
          } else {
            assert cert !in before[..|existing|];
          }
        }
      }
    }
  }

  /** The nested loop of `_generate_suppliers_for_category` merging one supplier's certifications. */
  method MergeCertifications(existing: seq<string>, required: seq<string>) returns (merged: seq<string>)
    ensures merged == Merged(existing, required)
  {
    merged := existing;
    var i := 0;
    while i < |required|
      invariant 0 <= i <= |required|
      invariant merged == Merged(existing, required[..i])
    {
      var cert := required[i];
      assert required[..i + 1][..i] == required[..i];
      if cert !in merged {
        merged := merged + [cert];
      }
      i := i + 1;
    }
    assert required[..i] == required;
  }

  /** A selected template after the certification merge (none when nothing is required). */
  function WithRequired(t: ScoutTemplate, certifications: seq<string>): ScoutTemplate {
    if certifications == [] then t else t.(certifications := Merged(t.certifications, certifications))
  }

  /**
   * `_generate_suppliers_for_category`: the category's pool, ValueError when it has
   * fewer than three templates, else the drawn templates in draw order, each with
   * the required certifications merged in.
   */
  method GenerateSuppliersForCategory(category: string, certifications: seq<string>, count: nat, picks: seq<nat>)
    returns (r: Result<seq<ScoutTemplate>, ScoutingError>)
    requires ValidSelection(|PoolFor(CategoryOf(category))|, count, picks)
    ensures var pool := PoolFor(CategoryOf(category));
      && (r.Err? <==> |pool| < 3)
      && (r.Ok? ==>
            && 3 <= |r.value| == count <= MaxCount(|pool|)
            && forall i :: 0 <= i < |r.value| ==> r.value[i] == WithRequired(pool[picks[i]], certifications))
  {
    var pool := PoolFor(CategoryOf(category));
    var upper := MaxCount(|pool|);
    if upper < 3 {
      return Err(EmptyCountRange);
    }
    var selected := seq(count, i requires 0 <= i < count => pool[picks[i]]);
    var index := 0;
    while index < |selected|
      invariant 0 <= index <= |selected| == count
      invariant forall i :: 0 <= i < index ==> selected[i] == WithRequired(pool[picks[i]], certifications)
      invariant forall i :: index <= i < count ==> selected[i] == pool[picks[i]]
    {
      if certifications != [] {
        var supplierCerts := MergeCertifications(selected[index].certifications, certifications);
        selected := selected[index := selected[index].(certifications := supplierCerts)];
      }
      index := index + 1;
    }
    return Ok(selected);
  }

  /** The services pool is too small: scouting a services requirement raises. */
  lemma ServicesCannotBeScouted(category: string)
    requires CategoryOf(category) == Services
    ensures |PoolFor(CategoryOf(category))| < 3
  {
  }

  /** The pools' templates have distinct names, so distinct picks give distinct suppliers. */
  lemma DistinctPicksDistinctNames(c: Category, picks: seq<nat>)
    requires forall i :: 0 <= i < |picks| ==> picks[i] < |PoolFor(c)|
    requires Distinct(picks)
    ensures forall i, j :: 0 <= i < j < |picks| ==> PoolFor(c)[picks[i]].name != PoolFor(c)[picks[j]].name
  {
    var pool := PoolFor(c);
    assert forall a, b :: 0 <= a < b < |pool| ==> pool[a].name != pool[b].name;
  }

  // ------------------------------------------------------------------ outreach

  /** `check_availability_scope`: every supplier is taken to be in scope. */
  function CheckAvailabilityScope(supplierName: string, requirementDescription: string): (inScope: bool)
    ensures inScope
  {
    true
  }

  /** The certification line of the outreach email. */
  function CertsText(required: seq<string>): (t: string)
    ensures required == [] ==> t == "industry standards"
  {
    if required != [] then Join(required, ", ") else "industry standards"
  }

  /** Every required certification is named in the email. */
  lemma CertsTextNamesEach(required: seq<string>, k: nat)
    requires k < |required|
    ensures Contains(CertsText(required), required[k])
  {
    JoinContainsEachPart(required, ", ", k);
  }
}
