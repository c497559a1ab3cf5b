/** The clinical rotations the feedback is tailored to: a fixed table of
    service contexts keyed by rotation identifier, the lookup with its
    fallback, the grouping of the rotations by specialty for the service
    picker, and the short description shown for a rotation. */
module Services {
  import opened Wrappers
  import opened Strings
  import OrderedDict

  datatype Rotation =
    | InternalMedicineHospitalist
    | InternalMedicineIcu
    | SurgeryGeneral
    | SurgeryTransplant
    | SurgeryOncology
    | ObgynObstetrics
    | ObgynGynecology
    | NeurologyGeneral
    | NeurologyStroke
    | NeurologyIcu

  /** One row of the table: read-only metadata about a rotation. */
  datatype ServiceContext = ServiceContext(
    specialty: string,
    name: string,
    focus: string,
    keyElements: seq<string>,
    commonPresentations: string,
    expectations: string)

  /** The rotations in the table's insertion order. */
  const Rotations: seq<Rotation> := [
    InternalMedicineHospitalist, InternalMedicineIcu,
    SurgeryGeneral, SurgeryTransplant, SurgeryOncology,
    ObgynObstetrics, ObgynGynecology,
    NeurologyGeneral, NeurologyStroke, NeurologyIcu]

  /** The rotation used when a requested key is not in the table. */
  const DefaultRotation: Rotation := InternalMedicineHospitalist

  /** The identifier a rotation is stored under. */
  function Key(r: Rotation): string
  {
    match r
    case InternalMedicineHospitalist => "internal_medicine_hospitalist"
    case InternalMedicineIcu => "internal_medicine_icu"
    case SurgeryGeneral => "surgery_general"
    case SurgeryTransplant => "surgery_transplant"
    case SurgeryOncology => "surgery_oncology"
    case ObgynObstetrics => "obgyn_obstetrics"
    case ObgynGynecology => "obgyn_gynecology"
    case NeurologyGeneral => "neurology_general"
    case NeurologyStroke => "neurology_stroke"
    case NeurologyIcu => "neurology_icu"
  }

  function Context(r: Rotation): ServiceContext
  {
    match r
    case InternalMedicineHospitalist =>
      ServiceContext(
        "Internal Medicine",
        "Internal Medicine - Hospitalist Service",
        "acute medical conditions, chronic disease exacerbations, medication reconciliation, discharge planning, complex medical decision-making",
        ["chief complaint", "HPI with pertinent positives/negatives", "past medical history", "medications with doses", "allergies", "social history", "family history", "review of systems", "physical exam", "assessment with differential", "plan with rationale"],
        "heart failure exacerbations, COPD exacerbations, diabetes management, hypertension crisis, pneumonia, UTIs, sepsis, electrolyte abnormalities, acute kidney injury",
        "thorough medical reasoning, consideration of comorbidities, medication interactions, social determinants of health, discharge planning")
    case InternalMedicineIcu =>
      ServiceContext(
        "Internal Medicine",
        "Internal Medicine - Medical ICU",
        "critically ill patients, ventilator management, vasopressor support, multi-organ failure, sedation management",
        ["chief complaint", "HPI", "past medical history", "medications", "allergies", "physical exam", "ventilator settings", "drips/pressors", "labs/ABG", "assessment", "ICU-specific plan"],
        "respiratory failure, septic shock, cardiogenic shock, acute respiratory distress syndrome, overdose, diabetic ketoacidosis, status epilepticus",
        "critical care reasoning, understanding of ICU interventions, hemodynamic monitoring, ventilator management")
    case SurgeryGeneral =>
      ServiceContext(
        "Surgery",
        "Surgery - General/Acute Care Surgery",
        "emergency surgical conditions, trauma, appendicitis, cholecystitis, bowel obstruction, hernias",
        ["chief complaint", "HPI", "past surgical history", "medications", "allergies", "physical exam with surgical findings", "imaging results", "labs", "assessment", "surgical vs conservative plan"],
        "acute abdomen, appendicitis, cholecystitis, bowel obstruction, hernias, trauma, perforated viscus, GI bleeding",
        "clear surgical indications, operative vs conservative management, risk stratification, post-operative care planning")
    case SurgeryTransplant =>
      ServiceContext(
        "Surgery",
        "Surgery - Transplant Surgery",
        "organ transplant evaluation, post-transplant care, immunosuppression management, transplant complications",
        ["chief complaint", "HPI", "transplant history", "immunosuppressive regimen", "rejection history", "infections", "physical exam", "labs including drug levels", "assessment", "plan"],
        "transplant evaluation, acute rejection, chronic rejection, post-transplant infections, immunosuppression toxicity, transplant complications",
        "understanding of immunosuppression, rejection surveillance, infection risk, long-term complications")
    case SurgeryOncology =>
      ServiceContext(
        "Surgery",
        "Surgery - Surgical Oncology",
        "cancer staging, surgical resection planning, perioperative oncology care, multidisciplinary cancer care",
        ["chief complaint", "HPI", "oncologic history", "staging", "prior treatments", "performance status", "physical exam", "imaging", "pathology", "assessment", "surgical plan"],
        "newly diagnosed cancers, metastatic disease, post-operative complications, cancer recurrence, palliative procedures",
        "cancer staging knowledge, multidisciplinary approach, surgical oncology principles, palliative care integration")
    case ObgynObstetrics =>
      ServiceContext(
        "Obstetrics & Gynecology",
        "OB/GYN - Obstetrics",
        "pregnancy care, labor and delivery, pregnancy complications, prenatal care, postpartum care",
        ["chief complaint", "HPI", "obstetric history (G/P/A)", "LMP/EGA", "prenatal course", "medications", "allergies", "physical exam", "fetal assessment", "assessment", "obstetric plan"],
        "pregnancy complications, preterm labor, preeclampsia, gestational diabetes, fetal growth restriction, labor management, postpartum hemorrhage",
        "obstetric history taking, fetal assessment, pregnancy-related physiology, labor management, emergency obstetric care")
    case ObgynGynecology =>
      ServiceContext(
        "Obstetrics & Gynecology",
        "OB/GYN - Gynecology",
        "gynecologic conditions, reproductive health, contraception, gynecologic surgery, reproductive endocrinology",
        ["chief complaint", "HPI", "gynecologic history", "menstrual history", "sexual history", "contraceptive use", "pap history", "physical exam", "pelvic exam", "assessment", "plan"],
        "abnormal uterine bleeding, pelvic pain, contraception counseling, STI screening, gynecologic cancers, infertility, menopause",
        "reproductive health knowledge, gynecologic exam skills, contraceptive counseling, cancer screening protocols")
    case NeurologyGeneral =>
      ServiceContext(
        "Neurology",
        "Neurology - General Neurology",
        "neurological conditions, seizure disorders, headaches, movement disorders, neuropathy, dementia",
        ["chief complaint", "HPI with neurologic timeline", "past medical history", "medications", "neurologic exam", "mental status", "cranial nerves", "motor/sensory exam", "coordination", "gait", "assessment with localization", "plan"],
        "seizures, headaches, altered mental status, movement disorders, neuropathy, dementia, multiple sclerosis, Parkinson's disease",
        "detailed neurologic exam, anatomic localization, neurologic differential diagnosis, understanding of neuroimaging")
    case NeurologyStroke =>
      ServiceContext(
        "Neurology",
        "Neurology - Stroke Team",
        "acute stroke care, TIA evaluation, stroke prevention, thrombolysis, thrombectomy, stroke rehabilitation",
        ["chief complaint", "HPI with time of onset", "past medical history", "medications", "NIHSS", "neurologic exam", "imaging review", "assessment with stroke type", "acute stroke plan"],
        "acute stroke, TIA, intracerebral hemorrhage, subarachnoid hemorrhage, stroke in evolution, post-stroke complications",
        "stroke protocols, time windows for intervention, NIHSS scoring, stroke imaging interpretation, acute stroke management")
    case NeurologyIcu =>
      ServiceContext(
        "Neurology",
        "Neurology - Neurocritical Care",
        "critically ill neurologic patients, intracranial pressure management, status epilepticus, brain death evaluation",
        ["chief complaint", "HPI", "neurologic history", "medications", "neuro exam", "ICP monitoring", "ventilator settings", "imaging", "EEG results", "assessment", "neuro-ICU plan"],
        "status epilepticus, traumatic brain injury, subarachnoid hemorrhage, brain death evaluation, post-operative neurosurgical patients",
        "neurocritical care principles, ICP management, seizure management, neurologic monitoring, brain death protocols")
  }

  /** The table as the source holds it: (key, context) entries in order. */
  function Table(): (t: seq<(string, ServiceContext)>)
    ensures |t| == |Rotations|
    ensures forall i :: 0 <= i < |t| ==> t[i] == (Key(Rotations[i]), Context(Rotations[i]))
  {
    seq(|Rotations|, i requires 0 <= i < |Rotations| => (Key(Rotations[i]), Context(Rotations[i])))
  }

  /** The table lists every rotation. */
  lemma RotationsComplete(r: Rotation)
    ensures r in Rotations
  {
  }

  /** Distinct rotations are stored under distinct keys. */
  lemma KeyInjective(r: Rotation, q: Rotation)
    ensures Key(r) == Key(q) ==> r == q
  {
  }

  /** The position of a rotation in the table. */
  function Position(r: Rotation): (i: nat)
    ensures i < |Rotations| && Rotations[i] == r
  {
    match r
    case InternalMedicineHospitalist => 0
    case InternalMedicineIcu => 1
    case SurgeryGeneral => 2
    case SurgeryTransplant => 3
    case SurgeryOncology => 4
    case ObgynObstetrics => 5
    case ObgynGynecology => 6
    case NeurologyGeneral => 7
    case NeurologyStroke => 8
    case NeurologyIcu => 9
  }

  /** The table has no duplicate key. */
  lemma TableKeysDistinct()
    ensures OrderedDict.DistinctKeys(Table())
  {
    var t := Table();
    forall i, j | 0 <= i < j < |t| ensures t[i].0 != t[j].0 {
      KeyInjective(Rotations[i], Rotations[j]);
      RotationsListedOnce(i, j);
    }
  }

  lemma RotationsListedOnce(i: nat, j: nat)
    requires i < j < |Rotations|
    ensures Rotations[i] != Rotations[j]
  {
    if Rotations[i] == Rotations[j] {
      PositionOfEntry(i);
      PositionOfEntry(j);
    }
  }

  lemma PositionOfEntry(i: nat)
    requires i < |Rotations|
    ensures Position(Rotations[i]) == i
  {
  }

  /** No rotation is stored under `key`. */
  predicate Unknown(key: string)
  {
    forall r: Rotation :: Key(r) != key
  }

  /** Linear search of a list of rotations by key. */
  function Find(rs: seq<Rotation>, key: string): (r: Option<Rotation>)
    ensures r.Some? ==> r.value in rs && Key(r.value) == key
    ensures r.None? ==> forall i :: 0 <= i < |rs| ==> Key(rs[i]) != key
    decreases |rs|
  {
    if rs == [] then None
    else if Key(rs[0]) == key then Some(rs[0])
    else Find(rs[1..], key)
  }

  /** `self.service_contexts.get(key)` as a rotation: the rotation stored
      under `key`, or nothing when the key is not in the table. */
  function Lookup(key: string): (r: Option<Rotation>)
    ensures r.Some? ==> Key(r.value) == key
    ensures r.None? <==> Unknown(key)
  {
    var r := Find(Rotations, key);
    if r.None? then
      assert forall q: Rotation :: Key(q) != key by {
        forall q: Rotation ensures Key(q) != key {
          RotationsComplete(q);
          var i :| 0 <= i < |Rotations| && Rotations[i] == q;
        }
      }
      r
    else r
  }

  /** The context `generate_feedback` works with: the requested rotation,
      falling back to the hospitalist service for an unknown key. */
  function SelectRotation(key: string): (r: Rotation)
    ensures Key(r) == key || (Unknown(key) && r == DefaultRotation)
  {
    match Lookup(key)
    case Some(r) => r
    case None => DefaultRotation
  }

  /** A known key selects its own rotation. */
  lemma SelectKnown(r: Rotation)
    ensures SelectRotation(Key(r)) == r
  {
    KeyInjective(SelectRotation(Key(r)), r);
  }

  /** The selection, characterised in both directions. */
  lemma SelectRotationIff(key: string, r: Rotation)
    ensures SelectRotation(key) == r <==> Key(r) == key || (Unknown(key) && r == DefaultRotation)
  {
    KeyInjective(SelectRotation(key), r);
  }

  const DefaultFocus := "General medical care"
  const DefaultCases := "Various medical conditions"

  /** `get_service_description`: the focus and common cases of the rotation,
      each replaced by a generic text when the key is unknown (there is no
      fallback to the hospitalist table entry here). */
  function ServiceDescription(key: string): (d: string)
    ensures Lookup(key).Some? ==>
      d == "**Focus:** " + Context(Lookup(key).value).focus
           + "\n**Common Cases:** " + Context(Lookup(key).value).commonPresentations
    ensures Unknown(key) ==>
      d == "**Focus:** " + DefaultFocus + "\n**Common Cases:** " + DefaultCases
  {
    var focus := if Lookup(key).Some? then Context(Lookup(key).value).focus else DefaultFocus;
    var cases := if Lookup(key).Some? then Context(Lookup(key).value).commonPresentations else DefaultCases;
    "**Focus:** " + focus + "\n**Common Cases:** " + cases
  }

  /** The specialties with the services under each, keys mapped to names,
      both in first-insertion order. */
  type Groups = seq<(string, seq<(string, string)>)>

  /** One step of `get_service_options`' loop. */
  function AddService(groups: Groups, key: string, ctx: ServiceContext): Groups
  {
    var members := OrderedDict.GetOr(groups, ctx.specialty, []);
    OrderedDict.Set(groups, ctx.specialty, OrderedDict.Set(members, key, ctx.name))
  }

  /** What the loop has built after the given entries. */
  function GroupBySpecialty(t: seq<(string, ServiceContext)>): Groups
    decreases |t|
  {
    if t == [] then [] else AddService(GroupBySpecialty(t[..|t| - 1]), t[|t| - 1].0, t[|t| - 1].1)
  }

  /** The specialties that occur in a table. */
  ghost function Specialties(t: seq<(string, ServiceContext)>): set<string>
  {
    set i | 0 <= i < |t| :: t[i].1.specialty
  }

  /** Entry `e` (a key and a name) comes from a table row of specialty `s`. */
  ghost predicate ListedIn(t: seq<(string, ServiceContext)>, s: string, e: (string, string))
  {
    exists i :: 0 <= i < |t| && t[i].0 == e.0 && t[i].1.specialty == s && t[i].1.name == e.1
  }

  /** The groups file key `k` under specialty `s`, mapped to name `n`. */
  predicate Files(groups: Groups, s: string, k: string, n: string)
  {
    match OrderedDict.Get(groups, s)
    case Some(members) => OrderedDict.Get(members, k) == Some(n)
    case None => false
  }

  /** Every row of `t` is filed under its specialty with its name. */
  ghost predicate FilesEveryRow(t: seq<(string, ServiceContext)>, groups: Groups)
  {
    forall i :: 0 <= i < |t| ==> Files(groups, t[i].1.specialty, t[i].0, t[i].1.name)
  }

  /** Every group has distinct keys and holds only rows of `t` of its specialty. */
  ghost predicate GroupsHoldRows(t: seq<(string, ServiceContext)>, groups: Groups)
  {
    && (forall j :: 0 <= j < |groups| ==> OrderedDict.DistinctKeys(groups[j].1))
    && (forall j, m :: 0 <= j < |groups| && 0 <= m < |groups[j].1| ==>
          ListedIn(t, groups[j].0, groups[j].1[m]))
  }

  /** `groups` is a grouping of table `t` by specialty: one group per
      specialty of the table, every row filed under its own specialty with
      its name, no key twice within a group, and nothing that is not a row. */
  ghost predicate GroupsTable(t: seq<(string, ServiceContext)>, groups: Groups)
  {
    && OrderedDict.DistinctKeys(groups)
    && (forall s :: s in OrderedDict.Keys(groups) <==> s in Specialties(t))
    && FilesEveryRow(t, groups)
    && GroupsHoldRows(t, groups)
  }

  lemma ListedInExtend(t: seq<(string, ServiceContext)>, x: (string, ServiceContext), s: string, e: (string, string))
    requires ListedIn(t, s, e)
    ensures ListedIn(t + [x], s, e)
  {
    var i :| 0 <= i < |t| && t[i].0 == e.0 && t[i].1.specialty == s && t[i].1.name == e.1;
    assert (t + [x])[i] == t[i];
  }

  lemma SpecialtiesExtend(t: seq<(string, ServiceContext)>, x: (string, ServiceContext))
    ensures Specialties(t + [x]) == Specialties(t) + {x.1.specialty}
  {
    var t' := t + [x];
    forall s | s in Specialties(t') ensures s in Specialties(t) + {x.1.specialty} {
      var i :| 0 <= i < |t'| && t'[i].1.specialty == s;
      if i < |t| { assert t'[i] == t[i]; }
    }
    forall s | s in Specialties(t) ensures s in Specialties(t') {
      var i :| 0 <= i < |t| && t[i].1.specialty == s;
      assert t'[i] == t[i];
    }
    assert t'[|t|] == x;
  }

  /** The group a new row joins has distinct keys, none of them the new key,
      and holds only rows of the table. */
  lemma JoinedGroup(t: seq<(string, ServiceContext)>, groups: Groups, k: string, sp: string)
    requires OrderedDict.DistinctKeys(groups) && GroupsHoldRows(t, groups)
    requires k !in OrderedDict.Keys(t)
    ensures var members := OrderedDict.GetOr(groups, sp, []);
      && OrderedDict.DistinctKeys(members)
      && (forall m :: 0 <= m < |members| ==> ListedIn(t, sp, members[m]) && members[m].0 != k)
  {
    var members := OrderedDict.GetOr(groups, sp, []);
    if sp in OrderedDict.Keys(groups) {
      OrderedDict.GetFound(groups, sp);
      var j0 :| 0 <= j0 < |groups| && groups[j0] == (sp, members);
      forall m | 0 <= m < |members| ensures ListedIn(t, sp, members[m]) && members[m].0 != k {
        assert ListedIn(t, groups[j0].0, groups[j0].1[m]);
        var i :| 0 <= i < |t| && t[i].0 == members[m].0 && t[i].1.specialty == sp && t[i].1.name == members[m].1;
        assert OrderedDict.Keys(t)[i] == t[i].0;
      }
    }
  }

  lemma StepFiles(t: seq<(string, ServiceContext)>, groups: Groups, k: string, c: ServiceContext)
    requires FilesEveryRow(t, groups)
    requires k !in OrderedDict.Keys(t)
    ensures FilesEveryRow(t + [(k, c)], AddService(groups, k, c))
  {
    var t' := t + [(k, c)];
    var sp := c.specialty;
    var members := OrderedDict.GetOr(groups, sp, []);
    var members' := OrderedDict.Set(members, k, c.name);
    var groups' := AddService(groups, k, c);
    forall i | 0 <= i < |t'| ensures Files(groups', t'[i].1.specialty, t'[i].0, t'[i].1.name) {
      OrderedDict.GetSet(groups, sp, members', t'[i].1.specialty);
      if i < |t| {
        assert t'[i] == t[i];
        assert Files(groups, t[i].1.specialty, t[i].0, t[i].1.name);
        assert OrderedDict.Keys(t)[i] == t[i].0;
        if t[i].1.specialty == sp {
          OrderedDict.GetSet(members, k, c.name, t[i].0);
        }
      } else {
        OrderedDict.GetSet(members, k, c.name, k);
      }
    }
  }

  lemma StepHoldRows(t: seq<(string, ServiceContext)>, groups: Groups, k: string, c: ServiceContext)
    requires OrderedDict.DistinctKeys(groups) && GroupsHoldRows(t, groups)
    requires k !in OrderedDict.Keys(t)
    ensures GroupsHoldRows(t + [(k, c)], AddService(groups, k, c))
  {
    var t' := t + [(k, c)];
    var sp := c.specialty;
    var members := OrderedDict.GetOr(groups, sp, []);
    var members' := OrderedDict.Set(members, k, c.name);
    var groups' := AddService(groups, k, c);
    JoinedGroup(t, groups, k, sp);
    OrderedDict.SetKeepsDistinct(members, k, c.name);
    forall j | 0 <= j < |groups'|
      ensures OrderedDict.DistinctKeys(groups'[j].1)
      ensures forall m :: 0 <= m < |groups'[j].1| ==> ListedIn(t', groups'[j].0, groups'[j].1[m])
    {
      OrderedDict.SetEntries(groups, sp, members', j);
      if groups'[j] == (sp, members') {
        forall m | 0 <= m < |members'| ensures ListedIn(t', sp, members'[m]) {
          OrderedDict.SetEntries(members, k, c.name, m);
          if members'[m] == (k, c.name) {
            assert t'[|t|] == (k, c);
          } else {
            ListedInExtend(t, (k, c), sp, members[m]);
          }
        }
      } else {
        forall m | 0 <= m < |groups'[j].1| ensures ListedIn(t', groups'[j].0, groups'[j].1[m]) {
          assert ListedIn(t, groups[j].0, groups[j].1[m]);
          ListedInExtend(t, (k, c), groups[j].0, groups[j].1[m]);
        }
      }
    }
  }

  /** One loop step keeps the grouping correct when the new key is fresh. */
  lemma AddServiceStep(t: seq<(string, ServiceContext)>, groups: Groups, k: string, c: ServiceContext)
    requires GroupsTable(t, groups)
    requires k !in OrderedDict.Keys(t)
    ensures GroupsTable(t + [(k, c)], AddService(groups, k, c))
  {
    var sp := c.specialty;
    var members' := OrderedDict.Set(OrderedDict.GetOr(groups, sp, []), k, c.name);
    OrderedDict.SetKeepsDistinct(groups, sp, members');
    OrderedDict.KeysSet(groups, sp, members');
    SpecialtiesExtend(t, (k, c));
    StepFiles(t, groups, k, c);
    StepHoldRows(t, groups, k, c);
  }

  /** The last row of `t` extends a grouping of the rows before it. */
  lemma GroupedAfterLast(t: seq<(string, ServiceContext)>, groups: Groups)
    requires t != [] && GroupsTable(t[..|t| - 1], groups)
    requires t[|t| - 1].0 !in OrderedDict.Keys(t[..|t| - 1])
    ensures GroupsTable(t, AddService(groups, t[|t| - 1].0, t[|t| - 1].1))
  {
    var n := |t| - 1;
    AddServiceStep(t[..n], groups, t[n].0, t[n].1);
    assert t[..n] + [(t[n].0, t[n].1)] == t;
  }

  /** Grouping a table without duplicate keys files every row exactly under
      its specialty, one group per specialty (`get_service_options`). */
  lemma {:induction false} GroupBySpecialtyCorrect(t: seq<(string, ServiceContext)>)
    requires OrderedDict.DistinctKeys(t)
    ensures GroupsTable(t, GroupBySpecialty(t))
    decreases |t|
  {
    if t == [] {
      assert Specialties(t) == {};
    } else {
      var n := |t| - 1;
      var prefix := t[..n];
      assert OrderedDict.DistinctKeys(prefix) && t[n].0 !in OrderedDict.Keys(prefix) by {
        assert forall i :: 0 <= i < n ==> prefix[i] == t[i];
        forall i | 0 <= i < n ensures OrderedDict.Keys(prefix)[i] != t[n].0 {
          assert prefix[i] == t[i];
        }
      }
      GroupBySpecialtyCorrect(prefix);
      GroupedAfterLast(t, GroupBySpecialty(prefix));
    }
  }

  /** The table's own grouping. */
  lemma TableGrouped()
    ensures GroupsTable(Table(), GroupBySpecialty(Table()))
  {
    TableKeysDistinct();
    GroupBySpecialtyCorrect(Table());
  }

  /** Creating an empty group first and then filing the key into it is one
      `AddService` step. */
  lemma CreateThenFile(groups: Groups, key: string, ctx: ServiceContext)
    requires ctx.specialty !in OrderedDict.Keys(groups)
    ensures var created := OrderedDict.Set(groups, ctx.specialty, []);
      && OrderedDict.Get(created, ctx.specialty) == Some([])
      && OrderedDict.Set(created, ctx.specialty, OrderedDict.Set([], key, ctx.name))
         == AddService(groups, key, ctx)
  {
    OrderedDict.GetSet(groups, ctx.specialty, [], ctx.specialty);
    OrderedDict.SetSet(groups, ctx.specialty, [], OrderedDict.Set([], key, ctx.name));
  }

  lemma GroupBySpecialtyStep(t: seq<(string, ServiceContext)>, i: nat)
    requires i < |t|
    ensures GroupBySpecialty(t[..i + 1]) == AddService(GroupBySpecialty(t[..i]), t[i].0, t[i].1)
  {
    assert t[..i + 1][..i] == t[..i];
  }

  /** `get_service_options`: the table's rotations grouped by specialty. */
  method GetServiceOptions() returns (groups: Groups)
    ensures groups == GroupBySpecialty(Table())
    ensures GroupsTable(Table(), groups)
  {
    var table := Table();
    groups := [];
    for i := 0 to |table|
      invariant groups == GroupBySpecialty(table[..i])
    {
      var (key, context) := table[i];
      var specialty := context.specialty;
      GroupBySpecialtyStep(table, i);
      if specialty !in OrderedDict.Keys(groups) {
        CreateThenFile(groups, key, context);
        groups := OrderedDict.Set(groups, specialty, []);
      }
      var members := OrderedDict.Get(groups, specialty).value;
      groups := OrderedDict.Set(groups, specialty, OrderedDict.Set(members, key, context.name));
    }
    assert table[..|table|] == table;
    TableGrouped();
  }
}
