/** The home-page assembler of the backend: the financial-year window used for the
    annual figures, and the shaping of the query results into the page's data with
    its defaults. The query results are inputs; the SQL text is not modelled. */
module Home {
  import opened Optional
  import opened Text

  // ---------------------------------------------------------------------------
  // Financial year (April to March)

  /** A calendar month. */
  datatype Month = Month(year: int, month: int)

  predicate ValidMonth(m: Month) {
    1 <= m.month <= 12
  }

  /** Calendar order of months. */
  predicate NotAfter(a: Month, b: Month) {
    a.year < b.year || (a.year == b.year && a.month <= b.month)
  }

  /** The year the current financial year began in. */
  function FinancialYearStart(today: Month): (start: int)
    requires ValidMonth(today)
    ensures NotAfter(Month(start, 4), today) && NotAfter(today, Month(start + 1, 3))
  {
    if today.month >= 4 then today.year else today.year - 1
  }

  /** Exactly one April-to-March year contains a given month. */
  lemma FinancialYearUnique(today: Month, s: int)
    requires ValidMonth(today)
    ensures NotAfter(Month(s, 4), today) && NotAfter(today, Month(s + 1, 3)) <==> s == FinancialYearStart(today)
  {
  }

  /** `fyStartDate` and `fyEndDate`: `<start>-04` and `<start + 1>-03`. */
  function FinancialYearBounds(today: Month): (r: (string, string))
    requires ValidMonth(today)
    ensures r.0 == IntToString(FinancialYearStart(today)) + "-04"
    ensures r.1 == IntToString(FinancialYearStart(today) + 1) + "-03"
  {
    var start := FinancialYearStart(today);
    (IntToString(start) + "-04", IntToString(start + 1) + "-03")
  }

  // ---------------------------------------------------------------------------
  // Query results

  /** The signed-in staff member's row with their institute; coordinates are
      whole numbers here. */
  datatype StaffRow = StaffRow(
    fullName: string, userRole: string, instituteName: string, lat: Option<int>, lng: Option<int>)

  datatype ColleagueRow = ColleagueRow(fullName: string, designation: string, mobile: string, email: string)

  /** Human population and the eight animal counts used, each possibly null. */
  datatype VillageRow = VillageRow(
    name: string, humanPopulation: Option<int>,
    equine: Option<int>, buffaloes: Option<int>, cows: Option<int>, pigs: Option<int>,
    goat: Option<int>, sheep: Option<int>, poultryLayers: Option<int>, poultryBroilers: Option<int>)

  datatype VaccineMonthlyRow = VaccineMonthlyRow(code: string, name: string, monthlyDoses: int)
  datatype VaccineAnnualRow = VaccineAnnualRow(code: string, annualDoses: int, targetDoses: int)

  datatype AttachedRow = AttachedRow(instituteName: string, reportStatus: Option<string>, statusType: Option<string>)

  /** The six sums of the statistics queries. */
  datatype Sums = Sums(
    monthlyOpd: int, annualOpd: int, monthlyAiCow: int, annualAiCow: int, monthlyAiBuf: int, annualAiBuf: int)

  datatype Inputs = Inputs(
    staff: seq<StaffRow>, colleagues: seq<ColleagueRow>, villages: seq<VillageRow>, sums: Sums,
    vaccineMonthly: seq<VaccineMonthlyRow>, vaccineAnnual: seq<VaccineAnnualRow>, attached: seq<AttachedRow>)

  // ---------------------------------------------------------------------------
  // The page data

  datatype Stat = Stat(monthly: int, annualCompleted: int, annualTarget: int)
  datatype StaffCard = StaffCard(name: string, role: string, phone: string, email: string, whatsapp: string)
  datatype Animals = Animals(
    equine: int, buffaloes: int, cows: int, pigs: int, goat: int, sheep: int, poultryLayers: int, poultryBroilers: int)
  datatype Village = Village(name: string, population: int, animals: Animals)
  datatype VaccineStat = VaccineStat(name: string, monthly: int, annualCompleted: int, annualTarget: int)
  datatype Attached = Attached(name: string, reportStatus: string, statusType: string)

  datatype HomeData = HomeData(
    name: string, welcomeMessage: string, lat: string, lng: string,
    opd: Stat, aiCow: Stat, aiBuf: Stat, vaccines: map<string, VaccineStat>,
    staff: seq<StaffCard>, villages: seq<Village>, reportingStatus: string, attached: seq<Attached>)

  const OpdTarget: int := 1200
  const AiCowTarget: int := 600
  const AiBufTarget: int := 360

  /** A coordinate is shown with its suffix when truthy, so a zero one is `N/A`. */
  function Coordinate(c: Option<int>, suffix: string): (r: string)
    ensures TruthyInt(c) ==> r == IntToString(c.value) + suffix
    ensures !TruthyInt(c) ==> r == "N/A"
  {
    if TruthyInt(c) then IntToString(c.value) + suffix else "N/A"
  }

  /** Only tehsil and district administrators see the institutes reporting to them. */
  predicate IsAdmin(role: string) {
    role == "Tehsil_Admin" || role == "District_Admin"
  }

  function StaffCards(rows: seq<ColleagueRow>): (r: seq<StaffCard>)
    ensures |r| == |rows|
    ensures forall i :: 0 <= i < |rows| ==>
              r[i].name == rows[i].fullName && r[i].role == rows[i].designation
              && r[i].phone == rows[i].mobile && r[i].whatsapp == rows[i].mobile && r[i].email == rows[i].email
  {
    if rows == [] then []
    else
      var s := rows[0];
      [StaffCard(s.fullName, s.designation, s.mobile, s.email, s.mobile)] + StaffCards(rows[1..])
  }

  function ToVillage(v: VillageRow): (r: Village)
    ensures r.name == v.name && r.population == OrInt(v.humanPopulation, 0)
  {
    Village(v.name, OrInt(v.humanPopulation, 0),
            Animals(OrInt(v.equine, 0), OrInt(v.buffaloes, 0), OrInt(v.cows, 0), OrInt(v.pigs, 0),
                    OrInt(v.goat, 0), OrInt(v.sheep, 0), OrInt(v.poultryLayers, 0), OrInt(v.poultryBroilers, 0)))
  }

  /** A village row whose counts are all missing shows zeros throughout. */
  lemma MissingCountsAreZero(name: string)
    ensures ToVillage(VillageRow(name, None, None, None, None, None, None, None, None, None))
         == Village(name, 0, Animals(0, 0, 0, 0, 0, 0, 0, 0))
  {
  }

  function Villages(rows: seq<VillageRow>): (r: seq<Village>)
    ensures |r| == |rows|
    ensures forall i :: 0 <= i < |rows| ==> r[i] == ToVillage(rows[i])
  {
    if rows == [] then [] else [ToVillage(rows[0])] + Villages(rows[1..])
  }

  function AttachedStatus(row: AttachedRow): (r: Attached)
    ensures r.name == row.instituteName
    ensures r.reportStatus == OrString(row.reportStatus, "Pending")
    ensures r.statusType == OrString(row.statusType, "error")
  {
    Attached(row.instituteName, OrString(row.reportStatus, "Pending"), OrString(row.statusType, "error"))
  }

  function AttachedList(rows: seq<AttachedRow>): (r: seq<Attached>)
    ensures |r| == |rows|
    ensures forall i :: 0 <= i < |rows| ==> r[i] == AttachedStatus(rows[i])
  {
    if rows == [] then [] else [AttachedStatus(rows[0])] + AttachedList(rows[1..])
  }

  /** `vaccineAnnualResult.rows.find(...)`: the first annual row with the code. */
  function FindAnnual(rows: seq<VaccineAnnualRow>, code: string): (r: Option<VaccineAnnualRow>)
    ensures r.None? <==> forall i :: 0 <= i < |rows| ==> rows[i].code != code
    ensures r.Some? ==> exists i :: 0 <= i < |rows| && rows[i] == r.value && r.value.code == code
                          && forall j :: 0 <= j < i ==> rows[j].code != code
  {
    if rows == [] then None
    else if rows[0].code == code then Some(rows[0])
    else
      var r := FindAnnual(rows[1..], code);
      if r.Some? then
        var i :| 0 <= i < |rows[1..]| && rows[1..][i] == r.value && r.value.code == code
                 && forall j :: 0 <= j < i ==> rows[1..][j].code != code;
        assert rows[i + 1] == r.value;
        r
      else r
  }

  /** The entry for one monthly row: annual figures 0 when no annual row matches. */
  function VaccineEntry(row: VaccineMonthlyRow, annual: seq<VaccineAnnualRow>): (r: VaccineStat)
    ensures r.name == row.name && r.monthly == row.monthlyDoses
    ensures FindAnnual(annual, row.code).None? ==> r.annualCompleted == 0 && r.annualTarget == 0
    ensures FindAnnual(annual, row.code).Some? ==>
              r.annualCompleted == FindAnnual(annual, row.code).value.annualDoses
              && r.annualTarget == FindAnnual(annual, row.code).value.targetDoses
  {
    var a := FindAnnual(annual, row.code);
    VaccineStat(row.name, row.monthlyDoses,
                if a.Some? then a.value.annualDoses else 0,
                if a.Some? then a.value.targetDoses else 0)
  }

  /** The `forEach` filling `vaccineData`: one key per code of the monthly rows,
      a later row with the same code overwriting an earlier one. */
  function VaccineMap(monthly: seq<VaccineMonthlyRow>, annual: seq<VaccineAnnualRow>): (m: map<string, VaccineStat>)
    ensures m.Keys == set i | 0 <= i < |monthly| :: monthly[i].code
    ensures forall code :: code in m ==>
              exists i :: 0 <= i < |monthly| && monthly[i].code == code && m[code] == VaccineEntry(monthly[i], annual)
                          && forall j :: i < j < |monthly| ==> monthly[j].code != code
  {
    if monthly == [] then map[]
    else
      var init := monthly[..|monthly| - 1];
      var last := monthly[|monthly| - 1];
      var prev := VaccineMap(init, annual);
      assert monthly == init + [last];
      VaccineKeysExtend(init, last, prev.Keys);
      VaccineValuesExtend(init, last, annual, prev);
      prev[last.code := VaccineEntry(last, annual)]
  }

  lemma VaccineKeysExtend(init: seq<VaccineMonthlyRow>, last: VaccineMonthlyRow, keys: set<string>)
    requires keys == set i | 0 <= i < |init| :: init[i].code
    ensures keys + {last.code} == set i | 0 <= i < |init + [last]| :: (init + [last])[i].code
  {
    var all := init + [last];
    forall code | code in set i | 0 <= i < |all| :: all[i].code ensures code in keys + {last.code} {
      var i :| 0 <= i < |all| && all[i].code == code;
      if i < |init| {
        assert init[i].code == code;
      }
    }
    forall code | code in keys ensures code in set i | 0 <= i < |all| :: all[i].code {
      var i :| 0 <= i < |init| && init[i].code == code;
      assert all[i].code == code;
    }
    assert all[|init|].code == last.code;
  }

  lemma VaccineValuesExtend(init: seq<VaccineMonthlyRow>, last: VaccineMonthlyRow, annual: seq<VaccineAnnualRow>,
                            prev: map<string, VaccineStat>)
    requires forall code :: code in prev ==>
               exists i :: 0 <= i < |init| && init[i].code == code && prev[code] == VaccineEntry(init[i], annual)
                           && forall j :: i < j < |init| ==> init[j].code != code
    ensures var all := init + [last];
            var m := prev[last.code := VaccineEntry(last, annual)];
            forall code :: code in m ==>
              exists i :: 0 <= i < |all| && all[i].code == code && m[code] == VaccineEntry(all[i], annual)
                          && forall j :: i < j < |all| ==> all[j].code != code
  {
    var all := init + [last];
    var m := prev[last.code := VaccineEntry(last, annual)];
    forall code | code in m
      ensures exists i :: 0 <= i < |all| && all[i].code == code && m[code] == VaccineEntry(all[i], annual)
                          && forall j :: i < j < |all| ==> all[j].code != code
    {
      if code != last.code {
        var i :| 0 <= i < |init| && init[i].code == code && prev[code] == VaccineEntry(init[i], annual)
                 && forall j :: i < j < |init| ==> init[j].code != code;
        assert all[i] == init[i];
      } else {
        assert all[|all| - 1].code == code;
      }
    }
  }

  /** `getHomeDataByUserId`: null when the user has no active staff row. */
  function GetHomeData(input: Inputs): (r: Option<HomeData>)
    ensures r.None? <==> input.staff == []
    ensures r.Some? ==> var main := input.staff[0];
              && r.value.name == main.instituteName
              && r.value.welcomeMessage == "Welcome " + main.fullName
              && r.value.lat == Coordinate(main.lat, "° N") && r.value.lng == Coordinate(main.lng, "° E")
              && r.value.reportingStatus == "On Time"
              && (!IsAdmin(main.userRole) ==> r.value.attached == [])
              && (IsAdmin(main.userRole) ==> r.value.attached == AttachedList(input.attached))
              && r.value.opd == Stat(input.sums.monthlyOpd, input.sums.annualOpd, OpdTarget)
              && r.value.aiCow == Stat(input.sums.monthlyAiCow, input.sums.annualAiCow, AiCowTarget)
              && r.value.aiBuf == Stat(input.sums.monthlyAiBuf, input.sums.annualAiBuf, AiBufTarget)
              && r.value.staff == StaffCards(input.colleagues)
              && r.value.villages == Villages(input.villages)
              && r.value.vaccines == VaccineMap(input.vaccineMonthly, input.vaccineAnnual)
  {
    if input.staff == [] then None
    else
      var main := input.staff[0];
      var s := input.sums;
      Some(HomeData(
        main.instituteName, "Welcome " + main.fullName,
        Coordinate(main.lat, "° N"), Coordinate(main.lng, "° E"),
        Stat(s.monthlyOpd, s.annualOpd, OpdTarget),
        Stat(s.monthlyAiCow, s.annualAiCow, AiCowTarget),
        Stat(s.monthlyAiBuf, s.annualAiBuf, AiBufTarget),
        VaccineMap(input.vaccineMonthly, input.vaccineAnnual),
        StaffCards(input.colleagues), Villages(input.villages), "On Time",
        if IsAdmin(main.userRole) then AttachedList(input.attached) else []))
  }

  /** A staff member who is not an administrator never sees attached institutes,
      whatever the attached query would have returned. */
  lemma NonAdminSeesNoInstitutes(input: Inputs)
    requires input.staff != [] && !IsAdmin(input.staff[0].userRole)
    ensures GetHomeData(input).value.attached == []
    ensures forall rows :: GetHomeData(input.(attached := rows)) == GetHomeData(input)
  {
  }
}
