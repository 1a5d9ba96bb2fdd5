/**
 * The form's schema: four sections of fields, each field with its id, its
 * type and, for choice fields, its option labels. Labels, guidance text,
 * placeholders and icons are presentation and are not part of this model.
 */
module Schema {
  import FormField

  /** One field; `options` is empty for a field that has none. */
  datatype FieldSpec = FieldSpec(id: string, fieldType: string, options: seq<string>, hasOtherOption: bool)

  datatype Section = Section(title: string, fields: seq<FieldSpec>)

  const Sections: seq<Section> := [
    Section("The ʻOhana & Vision", VisionFields),
    Section("Site Analysis", SiteFields),
    Section("Planting Plan", PlantingFields),
    Section("Action Plan & Kuleana", ActionFields)
  ]

  /** The number of sections, which the progress bar and the navigation clamp use. */
  const SectionCount: nat := 4

  const VisionFields: seq<FieldSpec> := [
      FieldSpec("visitDate", "date", [], false),
      FieldSpec("familyName", "text", [], false),
      FieldSpec("primaryContactName", "text", [], false),
      FieldSpec("contactPhone", "tel", [], false),
      FieldSpec("contactEmail", "email", [], false),
      FieldSpec("siteAddressStreet", "text", [], false),
      FieldSpec("siteAddressCity", "text", [], false),
      FieldSpec("siteAddressState", "text", [], false),
      FieldSpec("siteAddressZip", "text", [], false),
      FieldSpec("taxMapKey", "text", [], false),
      FieldSpec("visionAndGoals", "textarea", [], false),
      FieldSpec("favoriteFoods", "textarea", [], false),
      FieldSpec("gardenCaretakers", "checkbox",
        ["Keiki (children)", "Mākua (adults)", "Kūpuna (elders)", "Community friends", "Other"], true),
      FieldSpec("communityConnection", "textarea", [], false)
  ]

  const SiteFields: seq<FieldSpec> := [
      FieldSpec("plantingZoneDescription", "text", [], false),
      FieldSpec("plantingZoneDimensions", "dimensions", [], false),
      FieldSpec("plantingZonePhotos", "text", [], false),
      FieldSpec("sunlight", "radio",
        ["Full Sun (6+ hours)", "Partial Sun (4-6 hours)", "Dappled Shade", "Full Shade"], false),
      FieldSpec("waterSource", "radio",
        ["Municipal Tap", "Rainwater Catchment", "Well", "Stream/Natural Source", "Other"], true),
      FieldSpec("groundcover", "checkbox",
        ["Grass/Lawn", "Weeds", "Bare Dirt", "Mulch/Woodchips", "Concrete/Paving", "Other"], true),
      FieldSpec("slope", "radio", ["Mostly Flat", "Gentle Slope", "Steep Slope"], false),
      FieldSpec("obstacles", "checkbox",
        ["Overhead power lines", "Underground pipes (water/septic)", "Large rocks", "Tree roots", "Other"], true),
      FieldSpec("windConditions", "radio", ["North", "East", "South", "West", "Variable/Unsure"], false),
      FieldSpec("soilVisual", "radio",
        ["Rich and dark", "Sandy/Light-colored", "Heavy clay", "Rocky", "Compacted/Hard"], false),
      FieldSpec("soilTexture", "radio",
        ["Gritty (sandy)", "Smooth/Powdery (silty)", "Sticky/Forms a ribbon (clay)", "A good mix of all three (loam)"], false),
      FieldSpec("soilDrainage", "radio",
        ["Drains very quickly", "Drains well (puddle gone in minutes)", "Drains slowly (puddle stays for hours)",
         "Waterlogs / Doesn't drain"], false),
      FieldSpec("soilPH", "number", [], false),
      FieldSpec("soilObservations", "textarea", [], false)
  ]

  const PlantingFields: seq<FieldSpec> := [
      FieldSpec("desiredKeyTrees", "checkbox", ["ʻUlu (Breadfruit)", "Niu (Coconut)", "Maia (Banana)"], false),
      FieldSpec("optionalLargeTrees", "textarea", [], false),
      FieldSpec("hedgeAndVinePreference", "checkbox",
        ["Lilikoi (Passionfruit)", "Bele", "Chaya", "Moringa", "Kalo (Taro) for border", "Other"], true),
      FieldSpec("medicinalCulinaryGarden", "radio",
        ["Yes, a dedicated bed", "Yes, integrated among other plants", "Not at this time"], false)
  ]

  const ActionFields: seq<FieldSpec> := [
      FieldSpec("ohanaKuleana", "checklist",
        ["Clear existing vegetation", "Prepare the soil (weeding/amending)", "Ensure water access is ready",
         "Gather cardboard/mulch", "Commit to watering schedule"], false),
      FieldSpec("wfoKuleana", "checklist",
        ["Source all required plants", "Develop final planting sketch", "Schedule community planting day",
         "Bring necessary tools & amendments", "Provide guidance on planting day"], false)
  ]

  /** `(s, f)` names a field of the schema. */
  predicate IsField(s: int, f: int) {
    0 <= s < |Sections| && 0 <= f < |Sections[s].fields|
  }

  function Field(s: int, f: int): FieldSpec
    requires IsField(s, f)
  {
    Sections[s].fields[f]
  }

  predicate IsChoiceType(fieldType: string) {
    fieldType == "radio" || fieldType == "checkbox" || fieldType == "checklist"
  }

  predicate NoDuplicates(xs: seq<string>) {
    forall i, j :: 0 <= i < j < |xs| ==> xs[i] != xs[j]
  }

  /** The schema has sections, and each section has fields. */
  lemma SectionsNonEmpty()
    ensures |Sections| == SectionCount
    ensures forall s :: 0 <= s < |Sections| ==> |Sections[s].fields| > 0
  {
  }

  /** No two fields of the schema, in the same section or in different ones, share an id. */
  lemma IdsDistinct()
    ensures forall s1, f1, s2, f2 :: IsField(s1, f1) && IsField(s2, f2) && (s1, f1) != (s2, f2) ==>
              Field(s1, f1).id != Field(s2, f2).id
  {
    forall s1, f1, s2, f2 | IsField(s1, f1) && IsField(s2, f2) && (s1, f1) != (s2, f2)
      ensures Field(s1, f1).id != Field(s2, f2).id
    {
      if s1 == s2 {
        IdsDistinctWithin(s1);
      } else if s1 < s2 {
        IdsDistinctAcross(s1, s2);
      } else {
        IdsDistinctAcross(s2, s1);
      }
    }
  }

  lemma IdsDistinctWithin(s: int)
    requires 0 <= s < |Sections|
    ensures IdsDistinctIn(Sections[s].fields)
  {
    if s == 0 {
      VisionIdsDistinct();
    } else if s == 1 {
      SiteIdsDistinct();
    } else if s == 2 {
      PlantingIdsDistinct();
    } else {
      ActionIdsDistinct();
    }
  }

  predicate IdsDistinctIn(fields: seq<FieldSpec>) {
    IdsDistinctFrom(fields, 0, |fields|)
  }

  /** The ids of `fields[lo..hi]` occur nowhere later in `fields`. */
  predicate IdsDistinctFrom(fields: seq<FieldSpec>, lo: int, hi: int) {
    forall f1, f2 :: lo <= f1 < hi && 0 <= f1 < f2 < |fields| ==> fields[f1].id != fields[f2].id
  }

  lemma VisionIdsDistinct()
    ensures IdsDistinctIn(VisionFields)
  {
  }

  lemma SiteIdsDistinct()
    ensures IdsDistinctIn(SiteFields)
  {
    SiteIdsDistinctLow();
    SiteIdsDistinctHigh();
  }

  lemma SiteIdsDistinctLow()
    ensures IdsDistinctFrom(SiteFields, 0, 5)
  {
  }

  lemma SiteIdsDistinctHigh()
    ensures IdsDistinctFrom(SiteFields, 5, 14)
  {
  }

  lemma PlantingIdsDistinct()
    ensures IdsDistinctIn(PlantingFields)
  {
  }

  lemma ActionIdsDistinct()
    ensures IdsDistinctIn(ActionFields)
  {
  }

  lemma IdsDistinctAcross(s1: int, s2: int)
    requires 0 <= s1 < s2 < |Sections|
    ensures IdsDisjoint(Sections[s1].fields, Sections[s2].fields)
  {
    if s1 == 0 {
      VisionIdsDisjoint();
    } else if s1 == 1 {
      SiteIdsDisjoint();
    } else {
      PlantingIdsDisjoint();
    }
  }

  predicate IdsDisjoint(a: seq<FieldSpec>, b: seq<FieldSpec>) {
    IdsDisjointFrom(a, 0, |a|, b)
  }

  /** The ids of `a[lo..hi]` are not ids of `b`. */
  predicate IdsDisjointFrom(a: seq<FieldSpec>, lo: int, hi: int, b: seq<FieldSpec>) {
    forall f1, f2 :: lo <= f1 < hi && 0 <= f1 < |a| && 0 <= f2 < |b| ==> a[f1].id != b[f2].id
  }

  lemma VisionIdsDisjoint()
    ensures IdsDisjoint(VisionFields, SiteFields)
    ensures IdsDisjoint(VisionFields, PlantingFields)
    ensures IdsDisjoint(VisionFields, ActionFields)
  {
    VisionSiteIdsDisjoint();
  }

  lemma VisionSiteIdsDisjoint()
    ensures IdsDisjoint(VisionFields, SiteFields)
  {
    VisionSiteIdsDisjointLow();
    VisionSiteIdsDisjointHigh();
  }

  lemma VisionSiteIdsDisjointLow()
    ensures IdsDisjointFrom(VisionFields, 0, 7, SiteFields)
  {
  }

  lemma VisionSiteIdsDisjointHigh()
    ensures IdsDisjointFrom(VisionFields, 7, 14, SiteFields)
  {
  }

  lemma SiteIdsDisjoint()
    ensures IdsDisjoint(SiteFields, PlantingFields)
    ensures IdsDisjoint(SiteFields, ActionFields)
  {
  }

  lemma PlantingIdsDisjoint()
    ensures IdsDisjoint(PlantingFields, ActionFields)
  {
  }

  /** The options of one radio, checkbox or checklist field are a non-empty list without repeats. */
  predicate ChoiceOptionsOk(field: FieldSpec) {
    IsChoiceType(field.fieldType) ==> |field.options| > 0 && NoDuplicates(field.options)
  }

  /** Every radio, checkbox and checklist field lists at least one option, and no option twice. */
  lemma ChoiceOptionsWellFormed()
    ensures forall s, f :: IsField(s, f) && IsChoiceType(Field(s, f).fieldType) ==>
              |Field(s, f).options| > 0 && NoDuplicates(Field(s, f).options)
  {
    forall s, f | IsField(s, f) ensures ChoiceOptionsOk(Field(s, f)) {
      if s == 0 {
        VisionOptionsOk(f);
      } else if s == 1 {
        SiteOptionsOk(f);
      } else if s == 2 {
        PlantingOptionsOk(f);
      } else {
        ActionOptionsOk(f);
      }
    }
  }

  lemma VisionOptionsOk(f: int)
    requires 0 <= f < |VisionFields|
    ensures ChoiceOptionsOk(VisionFields[f])
  {
  }

  lemma SiteOptionsOk(f: int)
    requires 0 <= f < |SiteFields|
    ensures ChoiceOptionsOk(SiteFields[f])
  {
    if f < 7 {
      SiteOptionsOkLow(f);
    } else {
      SiteOptionsOkHigh(f);
    }
  }

  lemma SiteOptionsOkLow(f: int)
    requires 0 <= f < 7
    ensures ChoiceOptionsOk(SiteFields[f])
  {
  }

  lemma SiteOptionsOkHigh(f: int)
    requires 7 <= f < |SiteFields|
    ensures ChoiceOptionsOk(SiteFields[f])
  {
  }

  lemma PlantingOptionsOk(f: int)
    requires 0 <= f < |PlantingFields|
    ensures ChoiceOptionsOk(PlantingFields[f])
  {
  }

  lemma ActionOptionsOk(f: int)
    requires 0 <= f < |ActionFields|
    ensures ChoiceOptionsOk(ActionFields[f])
  {
  }

  /** Every field that offers a free-text "Other" answer lists "Other" among its options. */
  lemma OtherOptionListed()
    ensures forall s, f :: IsField(s, f) && Field(s, f).hasOtherOption ==> "Other" in Field(s, f).options
  {
  }

  /** Every field type is one the renderer handles, so no field renders nothing. */
  lemma EveryFieldRendered()
    ensures forall s, f :: IsField(s, f) ==> FormField.ShapeOf(Field(s, f).fieldType).Some?
  {
  }
}
