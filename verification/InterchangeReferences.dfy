/** The reference rules of a plan document, spelled out by collection and field. */
module InterchangeReferences {
  import opened JsonText
  import opened InterchangeSchema
  import opened InterchangeRules

  /** Every item of one collection names an item of another in this field, or nothing where it may. */
  ghost predicate Names(d: Json, items: string, field: string, others: string, optional: bool) {
    forall x | x in Items(d, items) :: x.Obj? &&
      if optional && Get(x.fields, field) == Some(Null) then true
      else StringAt(x.fields, field).Some? && exists y :: y in Items(d, others) && IdOf(y) == StringAt(x.fields, field).value
  }

  lemma {:induction false} NamesMeans(d: Json, r: Reference)
    requires r.from < COUNT && r.to < COUNT && r.field != "radio_ids" && r.field != "allowed_channels"
    ensures Refers(d, r) <==> Names(d, NAMES[r.from], r.field, NAMES[r.to], r.optional)
  {
    var others := Items(d, NAMES[r.to]);
    forall id ensures id in IdsOf(others) <==> exists y :: y in others && IdOf(y) == id {
      if id in IdsOf(others) {
        var i :| 0 <= i < |others| && IdsOf(others)[i] == id;
        assert others[i] in others;
      }
      if y :| y in others && IdOf(y) == id {
        var i :| 0 <= i < |others| && others[i] == y;
        assert IdsOf(others)[i] == id;
      }
    }
  }

  lemma {:induction false} Entry(d: Json, i: nat, from: nat, field: string, to: nat, optional: bool)
    requires i < |REFERENCES| && REFERENCES[i] == Reference(from, field, to, optional) && from < COUNT && to < COUNT
    requires |field| != 16 && (|field| == 9 ==> field[0] != 'r')
    ensures Refers(d, REFERENCES[i]) <==> Names(d, NAMES[from], field, NAMES[to], optional)
  {
    assert |"allowed_channels"| == 16 && |"radio_ids"| == 9 && "radio_ids"[0] == 'r';
    NamesMeans(d, REFERENCES[i]);
  }

  ghost predicate ReferTo(d: Json, a: nat, b: nat) { b <= |REFERENCES| && forall i | a <= i < b :: Refers(d, REFERENCES[i]) }

  ghost predicate NamedFrames(d: Json) {
    && Names(d, "coordinate_frames", "parent_id", "coordinate_frames", true)
    && Names(d, "floors", "frame_id", "coordinate_frames", false)
  }

  lemma {:induction false} FramesMean(d: Json)
    ensures ReferTo(d, 0, 2) <==> NamedFrames(d)
  {
    Entry(d, 0, 0, "parent_id", 0, true);
    Entry(d, 1, 1, "frame_id", 0, false);
    assert NAMES[0] == "coordinate_frames" && NAMES[1] == "floors";
  }

  ghost predicate NamedGeometry(d: Json) {
    && Names(d, "geometry", "floor_id", "floors", false)
    && Names(d, "geometry", "frame_id", "coordinate_frames", false)
    && Names(d, "geometry", "material_id", "materials", true)
  }

  lemma {:induction false} GeometryMean(d: Json)
    ensures ReferTo(d, 2, 5) <==> NamedGeometry(d)
  {
    Entry(d, 2, 3, "floor_id", 1, false);
    Entry(d, 3, 3, "frame_id", 0, false);
    Entry(d, 4, 3, "material_id", 2, true);
    assert NAMES[0] == "coordinate_frames" && NAMES[1] == "floors" && NAMES[2] == "materials" && NAMES[3] == "geometry";
  }

  ghost predicate NamedAccessPoints(d: Json) {
    && Names(d, "access_points", "floor_id", "floors", false)
    && Names(d, "access_points", "frame_id", "coordinate_frames", false)
  }

  lemma {:induction false} AccessPointsMean(d: Json)
    ensures ReferTo(d, 5, 7) <==> NamedAccessPoints(d)
  {
    Entry(d, 5, 4, "floor_id", 1, false);
    Entry(d, 6, 4, "frame_id", 0, false);
    assert NAMES[0] == "coordinate_frames" && NAMES[1] == "floors" && NAMES[4] == "access_points";
  }

  ghost predicate NamedRadios(d: Json) {
    && Names(d, "radios", "access_point_id", "access_points", false)
    && Names(d, "radios", "floor_id", "floors", false)
    && Names(d, "radios", "frame_id", "coordinate_frames", false)
  }

  lemma {:induction false} RadiosMean(d: Json)
    ensures ReferTo(d, 7, 10) <==> NamedRadios(d)
  {
    Entry(d, 7, 5, "access_point_id", 4, false);
    Entry(d, 8, 5, "floor_id", 1, false);
    Entry(d, 9, 5, "frame_id", 0, false);
    assert NAMES[0] == "coordinate_frames" && NAMES[1] == "floors" && NAMES[4] == "access_points" && NAMES[5] == "radios";
  }

  ghost predicate NamedConstraints(d: Json) {
    && Names(d, "channel_constraints", "radio_id", "radios", false)
  }

  lemma {:induction false} ConstraintsMean(d: Json)
    ensures ReferTo(d, 10, 11) <==> NamedConstraints(d)
  {
    Entry(d, 10, 6, "radio_id", 5, false);
    assert NAMES[5] == "radios" && NAMES[6] == "channel_constraints";
  }

  ghost predicate NamedZones(d: Json) {
    && Names(d, "zones", "floor_id", "floors", false)
    && Names(d, "zones", "frame_id", "coordinate_frames", false)
    && Names(d, "zones", "boundary_geometry_id", "geometry", false)
  }

  lemma {:induction false} ZonesMean(d: Json)
    ensures ReferTo(d, 11, 14) <==> NamedZones(d)
  {
    Entry(d, 11, 7, "floor_id", 1, false);
    Entry(d, 12, 7, "frame_id", 0, false);
    Entry(d, 13, 7, "boundary_geometry_id", 3, false);
    assert NAMES[0] == "coordinate_frames" && NAMES[1] == "floors" && NAMES[3] == "geometry" && NAMES[7] == "zones";
  }

  ghost predicate NamedRequirements(d: Json) {
    && Names(d, "requirements", "zone_id", "zones", false)
  }

  lemma {:induction false} RequirementsMean(d: Json)
    ensures ReferTo(d, 14, 15) <==> NamedRequirements(d)
  {
    Entry(d, 14, 8, "zone_id", 7, false);
    assert NAMES[7] == "zones" && NAMES[8] == "requirements";
  }

  /** The table of references says exactly which collections name which. */
  lemma {:induction false} ReferencesMean(d: Json)
    ensures ReferenceRules(d) <==>
            && NamedFrames(d) && NamedGeometry(d) && NamedAccessPoints(d) && NamedRadios(d)
            && NamedConstraints(d) && NamedZones(d) && NamedRequirements(d)
  {
    FramesMean(d);
    GeometryMean(d);
    AccessPointsMean(d);
    RadiosMean(d);
    ConstraintsMean(d);
    ZonesMean(d);
    RequirementsMean(d);
    Split(d);
  }

  lemma {:induction false} Split(d: Json)
    ensures ReferenceRules(d) <==>
            && ReferTo(d, 0, 2) && ReferTo(d, 2, 5) && ReferTo(d, 5, 7) && ReferTo(d, 7, 10)
            && ReferTo(d, 10, 11) && ReferTo(d, 11, 14) && ReferTo(d, 14, 15)
  {
    assert |REFERENCES| == 15;
  }
}
