/** The patch a wake sends is a JSON merge patch between its snapshot and the stamped copy of it. Here it is
    computed on the JSON of the whole object and shown to be what the model's annotation patch says. */
module WakePatches {
  import opened JsonMerge
  import P = Programs

  function Strings(m: map<string, string>): Json {
    Obj(map k | k in m :: Str(m[k]))
  }

  /** The metadata on the wire; annotations are left out when there are none. */
  function Metadata(others: map<string, Json>, annotations: map<string, string>): Json {
    Obj(if annotations == map[] then others else others["annotations" := Strings(annotations)])
  }

  /** An object: its metadata besides the annotations, its annotations, and everything else. */
  datatype Document = Document(others: map<string, Json>, annotations: map<string, string>, rest: map<string, Json>) {
    predicate Proper() { "annotations" !in others && "metadata" !in rest }

    function ToJson(): Json { Obj(rest["metadata" := Metadata(others, annotations)]) }
  }

  lemma DiffOfOneMember(f: map<string, Json>, k: string, v: Json)
    ensures Diff(Obj(f), Obj(f[k := v])) ==
            if k in f && f[k] == v then map[] else map[k := if k in f then Change(f[k], v) else v]
  {
    forall j | j in f ensures !Changed(f[j], f[j]) {
      if f[j].Obj? { DiffIsEmptyIffEqual(f[j], f[j]); }
    }
    if k in f && f[k].Obj? && v.Obj? { DiffIsEmptyIffEqual(f[k], v); }
  }

  lemma ApplyOneMember(f: map<string, Json>, k: string, p: Json)
    requires !p.Null?
    ensures Apply(Obj(f), Obj(map[k := p])) == Obj(f[k := Apply(if k in f then f[k] else Null, p)])
  {
    var q := map[k := p];
    var r := Apply(Obj(f), Obj(q)).fields;
    assert forall j :: j in q <==> j == k;
    assert forall j :: j in r <==> j in f || j == k;
    forall j | j in r ensures r[j] == f[k := Apply(if k in f then f[k] else Null, p)][j] {
    }
  }

  /** The patch on the annotations, inside the metadata. */
  function OnAnnotations(key: string, value: string): Json {
    Obj(map["metadata" := Obj(map["annotations" := Obj(map[key := Str(value)])])])
  }

  lemma StringsStamped(a: map<string, string>, key: string, value: string)
    ensures Strings(a[key := value]) == Obj(Strings(a).fields[key := Str(value)])
    ensures Strings(map[key := value]) == Obj(map[key := Str(value)])
  {
    assert Strings(a[key := value]).fields == Strings(a).fields[key := Str(value)];
    assert Strings(map[key := value]).fields == map[key := Str(value)];
  }

  lemma MetadataStamped(others: map<string, Json>, a: map<string, string>, key: string, value: string)
    requires "annotations" !in others
    ensures Metadata(others, a[key := value]) ==
              Obj(Metadata(others, a).fields["annotations" := Strings(a[key := value])])
  {
    assert a[key := value][key] == value;
    hide Strings;
  }

  lemma MetadataDiff(others: map<string, Json>, a: map<string, string>, key: string, value: string)
    requires "annotations" !in others && !(key in a && a[key] == value)
    ensures Metadata(others, a[key := value]) != Metadata(others, a)
    ensures Diff(Metadata(others, a), Metadata(others, a[key := value])) ==
              map["annotations" := Obj(map[key := Str(value)])]
  {
    StringsStamped(a, key, value);
    MetadataStamped(others, a, key, value);
    DiffOfOneMember(Strings(a).fields, key, Str(value));
    DiffOfOneMember(Metadata(others, a).fields, "annotations", Strings(a[key := value]));
    assert key in a ==> Strings(a).fields[key] == Str(a[key]);
    assert Strings(a[key := value]).fields[key] == Str(value);
    if a == map[] {
      assert a[key := value] == map[key := value];
    }
    hide Diff, Changed;
  }

  lemma MetadataApply(others: map<string, Json>, a: map<string, string>, key: string, value: string)
    requires "annotations" !in others
    ensures Apply(Metadata(others, a), Obj(map["annotations" := Obj(map[key := Str(value)])])) ==
              Metadata(others, a[key := value])
  {
    var inner := Obj(map[key := Str(value)]);
    StringsStamped(a, key, value);
    MetadataStamped(others, a, key, value);
    ApplyOneMember(Metadata(others, a).fields, "annotations", inner);
    if a == map[] {
      ApplyFresh(Null, inner);
      assert a[key := value] == map[key := value];
    } else {
      ApplyOneMember(Strings(a).fields, key, Str(value));
    }
    hide Strings;
  }

  /** The object with an annotation set. */
  function Annotated(o: Document, key: string, value: string): Document {
    o.(annotations := o.annotations[key := value])
  }

  lemma DocumentApply(o: Document, key: string, value: string)
    requires o.Proper()
    ensures Apply(o.ToJson(), OnAnnotations(key, value)) == Annotated(o, key, value).ToJson()
  {
    ApplyOneMember(o.ToJson().fields, "metadata", Obj(map["annotations" := Obj(map[key := Str(value)])]));
    MetadataApply(o.others, o.annotations, key, value);
    var m := Metadata(o.others, o.annotations[key := value]);
    assert o.ToJson().fields["metadata" := m] == o.rest["metadata" := m];
    hide Metadata, Apply;
  }

  /** The patch `MergeFrom` computes between a snapshot and its stamped copy. */
  function SentPatch(snapshot: Document, key: string, stamp: string): Json {
    Obj(Diff(snapshot.ToJson(), Annotated(snapshot, key, stamp).ToJson()))
  }

  predicate Has(o: Document, key: string, value: string) {
    key in o.annotations && o.annotations[key] == value
  }

  lemma NothingToSend(snapshot: Document, key: string, stamp: string)
    requires Has(snapshot, key, stamp)
    ensures Annotated(snapshot, key, stamp) == snapshot && SentPatch(snapshot, key, stamp) == Obj(map[])
  {
    assert snapshot.annotations[key := stamp] == snapshot.annotations;
    DiffIsEmptyIffEqual(snapshot.ToJson(), snapshot.ToJson());
    hide Diff, Strings, Metadata;
  }

  lemma DocumentStamped(o: Document, key: string, stamp: string)
    ensures Annotated(o, key, stamp).ToJson() ==
            Obj(o.ToJson().fields["metadata" := Metadata(o.others, o.annotations[key := stamp])])
  {
    var m := Metadata(o.others, o.annotations[key := stamp]);
    assert o.ToJson().fields["metadata" := m] == o.rest["metadata" := m];
    hide Metadata;
  }

  lemma StampToSend(snapshot: Document, key: string, stamp: string)
    requires snapshot.Proper() && !Has(snapshot, key, stamp)
    ensures SentPatch(snapshot, key, stamp) == OnAnnotations(key, stamp)
  {
    var m := Metadata(snapshot.others, snapshot.annotations[key := stamp]);
    MetadataDiff(snapshot.others, snapshot.annotations, key, stamp);
    DocumentStamped(snapshot, key, stamp);
    DiffOfOneMember(snapshot.ToJson().fields, "metadata", m);
    hide Diff, Changed, Strings, Metadata, Annotated;
  }

  lemma EmptyPatch(o: Document)
    ensures Apply(o.ToJson(), Obj(map[])) == o.ToJson()
  {
    assert Apply(o.ToJson(), Obj(map[])).fields == o.ToJson().fields;
  }

  lemma PatchMerges(snapshot: Document, later: Document, key: string, stamp: string)
    requires snapshot.Proper() && later.Proper()
    ensures Apply(later.ToJson(), SentPatch(snapshot, key, stamp)) ==
            (if Has(snapshot, key, stamp) then later else Annotated(later, key, stamp)).ToJson()
  {
    if Has(snapshot, key, stamp) {
      NothingToSend(snapshot, key, stamp);
      EmptyPatch(later);
    } else {
      StampToSend(snapshot, key, stamp);
      DocumentApply(later, key, stamp);
    }
    hide Apply, SentPatch, Metadata, OnAnnotations, Annotated;
  }

  /** A stamp an object lacks changes its JSON. */
  lemma StampShows(o: Document, key: string, stamp: string)
    requires o.Proper()
    ensures o.ToJson() == Annotated(o, key, stamp).ToJson() <==> Has(o, key, stamp)
  {
    if Has(o, key, stamp) {
      NothingToSend(o, key, stamp);
    } else {
      MetadataDiff(o.others, o.annotations, key, stamp);
      DocumentStamped(o, key, stamp);
      assert o.ToJson().fields["metadata"] == Metadata(o.others, o.annotations);
    }
    hide Metadata, Strings, Annotated;
  }

  lemma ModelPatch(snapshot: Document, later: Document, stamp: string)
    ensures later.(annotations := later.annotations + P.WakePatch(snapshot.annotations, stamp)) ==
            if Has(snapshot, P.LAST_USED, stamp) then later else Annotated(later, P.LAST_USED, stamp)
  {
    assert later.annotations + map[] == later.annotations;
    assert later.annotations + map[P.LAST_USED := stamp] == later.annotations[P.LAST_USED := stamp];
  }

  /** The patch a wake computes from its snapshot, applied to the JSON of any later version of the object,
      merges the model's change into its annotations and touches nothing else, also when there were none. */
  lemma WakePatchIsMergePatch(snapshot: Document, later: Document, stamp: string)
    requires snapshot.Proper() && later.Proper()
    ensures Apply(later.ToJson(), SentPatch(snapshot, P.LAST_USED, stamp)) ==
            later.(annotations := later.annotations + P.WakePatch(snapshot.annotations, stamp)).ToJson()
  {
    PatchMerges(snapshot, later, P.LAST_USED, stamp);
    ModelPatch(snapshot, later, stamp);
    hide Apply, SentPatch, Metadata, Annotated, P.WakePatch, Has;
  }

  /** So a wake leaves its stamp, and changes nothing else, exactly unless its snapshot had the stamp already
      and the later version lost it. */
  lemma WakeSetsStampIff(snapshot: Document, later: Document, stamp: string)
    requires snapshot.Proper() && later.Proper()
    ensures Apply(later.ToJson(), SentPatch(snapshot, P.LAST_USED, stamp)) ==
              Annotated(later, P.LAST_USED, stamp).ToJson() <==>
            !Has(snapshot, P.LAST_USED, stamp) || Has(later, P.LAST_USED, stamp)
  {
    PatchMerges(snapshot, later, P.LAST_USED, stamp);
    StampShows(later, P.LAST_USED, stamp);
    hide Apply, SentPatch, Metadata, Annotated, Has;
  }
}
