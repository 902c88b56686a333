/** The `Metadata` entity shared by players and servers: two optional
    string-to-string maps. `None` is Go's nil map, which reads like an empty
    map but is told apart by HasLabel and HasLabels. */
module MetadataTypes {
  import opened Wrappers
  import opened Constant

  /** `m[key]` on a Go map that may be nil, with the presence flag. */
  function Find(m: Option<map<string, string>>, key: string): Option<string> {
    if m.Some? && key in m.value then Some(m.value[key]) else None
  }

  /** `m[key]` as a plain index expression: a nil map or a missing key reads as "". */
  function ValueAt(m: Option<map<string, string>>, key: string): string {
    Find(m, key).GetOr("")
  }

  /** The error GetBoolAnnotation reports for a present, non-boolean text. */
  datatype AnnotationError = NotABool(key: AnnotationKey, raw: string)

  /** The `(value, present, error)` triple of GetBoolAnnotation. */
  datatype BoolAnnotation = BoolAnnotation(value: bool, present: bool, err: Option<AnnotationError>)

  datatype Metadata = Metadata(
    labels: Option<map<string, string>>,
    annotations: Option<map<string, string>>)
  {
    /** The empty value `&Metadata{}`: both maps nil. */
    static const Empty := Metadata(None, None)

    // --- labels ---

    /** GetLabel: the value and whether the key is present; a nil map holds nothing. */
    function GetLabel(key: string): (r: Option<string>)
      ensures r.Some? <==> labels.Some? && key in labels.value
      ensures r.Some? ==> r.value == labels.value[key]
    {
      Find(labels, key)
    }

    /** True on a non-nil map whose entry for `key`, read as "" when missing, is `value`. */
    predicate HasLabel(key: string, value: string)
      ensures labels.None? ==> !HasLabel(key, value)
      ensures labels.Some? ==> (HasLabel(key, value) <==> GetLabel(key).GetOr("") == value)
    {
      labels.Some? && ValueAt(labels, key) == value
    }

    /** True when every required pair matches; on a nil map only the empty requirement matches. */
    predicate HasLabels(required: map<string, string>)
      ensures |required| == 0 ==> HasLabels(required)
      ensures labels.None? ==> (HasLabels(required) <==> |required| == 0)
      ensures labels.Some? ==> (HasLabels(required) <==> forall k :: k in required ==> HasLabel(k, required[k]))
    {
      if labels.None? then |required| == 0
      else forall k :: k in required ==> ValueAt(labels, k) == required[k]
    }

    /** SetLabel: allocates the label map if it is nil and stores the pair. */
    function WithLabel(key: string, value: string): (r: Metadata)
      ensures r.labels.Some?
      ensures r.GetLabel(key) == Some(value)
      ensures forall k :: k != key ==> r.GetLabel(k) == GetLabel(k)
      ensures r.annotations == annotations
    {
      Metadata(Some(labels.GetOr(map[])[key := value]), annotations)
    }

    /** DeleteLabel: removes `key` from a non-nil map, and is a no-op on a nil one. */
    function WithoutLabel(key: string): (r: Metadata)
      ensures r.labels.None? <==> labels.None?
      ensures r.GetLabel(key) == None
      ensures forall k :: k != key ==> r.GetLabel(k) == GetLabel(k)
      ensures r.annotations == annotations
    {
      if labels.None? then this else Metadata(Some(labels.value - {key}), annotations)
    }

    // --- annotations ---

    /** GetAnnotation: the value and whether the key is present; a nil map holds nothing. */
    function GetAnnotation(key: AnnotationKey): (r: Option<string>)
      ensures r.Some? <==> annotations.Some? && key in annotations.value
      ensures r.Some? ==> r.value == annotations.value[key]
    {
      Find(annotations, key)
    }

    /** True on a non-nil map whose entry for `key`, read as "" when missing, is `value`. */
    predicate HasAnnotation(key: AnnotationKey, value: string)
      ensures annotations.None? ==> !HasAnnotation(key, value)
      ensures annotations.Some? ==> (HasAnnotation(key, value) <==> GetAnnotation(key).GetOr("") == value)
    {
      annotations.Some? && ValueAt(annotations, key) == value
    }

    /** SetAnnotation: allocates the annotation map if it is nil and stores the pair. */
    function WithAnnotation(key: AnnotationKey, value: string): (r: Metadata)
      ensures r.annotations.Some?
      ensures r.GetAnnotation(key) == Some(value)
      ensures forall k :: k != key ==> r.GetAnnotation(k) == GetAnnotation(k)
      ensures r.labels == labels
    {
      Metadata(labels, Some(annotations.GetOr(map[])[key := value]))
    }

    /** DeleteAnnotation: removes `key` from a non-nil map, and is a no-op on a nil one. */
    function WithoutAnnotation(key: AnnotationKey): (r: Metadata)
      ensures r.annotations.None? <==> annotations.None?
      ensures r.GetAnnotation(key) == None
      ensures forall k :: k != key ==> r.GetAnnotation(k) == GetAnnotation(k)
      ensures r.labels == labels
    {
      if annotations.None? then this else Metadata(labels, Some(annotations.value - {key}))
    }

    /** SetBoolAnnotation: stores the `%t` text of `b`, so that GetBoolAnnotation reads `b` back. */
    function WithBoolAnnotation(key: AnnotationKey, b: bool): (r: Metadata)
      ensures r.GetBoolAnnotation(key) == BoolAnnotation(b, true, None)
      ensures forall k :: k != key ==> r.GetAnnotation(k) == GetAnnotation(k)
      ensures r.labels == labels
    {
      WithAnnotation(key, FormatBool(b))
    }

    /** GetBoolAnnotation: absent is `(false, false, nil)`; exactly "true" or
        "false" is that value with no error; any other text is
        `(false, true, error)`. */
    function GetBoolAnnotation(key: AnnotationKey): (r: BoolAnnotation)
      ensures r.present <==> GetAnnotation(key).Some?
      ensures !r.present ==> r == BoolAnnotation(false, false, None)
      ensures r.present && r.err.None? ==> GetAnnotation(key) == Some(FormatBool(r.value))
      ensures r.present && GetAnnotation(key).value in {"true", "false"} ==>
                r == BoolAnnotation(GetAnnotation(key).value == "true", true, None)
      ensures r.present && GetAnnotation(key).value !in {"true", "false"} ==>
                r == BoolAnnotation(false, true, Some(NotABool(key, GetAnnotation(key).value)))
    {
      match GetAnnotation(key)
      case None => BoolAnnotation(false, false, None)
      case Some(raw) =>
        if raw == "true" then BoolAnnotation(true, true, None)
        else if raw == "false" then BoolAnnotation(false, true, None)
        else BoolAnnotation(false, true, Some(NotABool(key, raw)))
    }
  }

  /** A `*Metadata` that callers mutate in place. */
  class MetadataRef {
    var labels: Option<map<string, string>>
    var annotations: Option<map<string, string>>

    /** The value this reference currently points to. */
    function Value(): Metadata
      reads this
    {
      Metadata(labels, annotations)
    }

    constructor (m: Metadata)
      ensures Value() == m
    {
      labels := m.labels;
      annotations := m.annotations;
    }

    method SetLabel(key: string, value: string)
      modifies this
      ensures Value() == old(Value()).WithLabel(key, value)
    {
      if labels.None? {
        labels := Some(map[]);
      }
      labels := Some(labels.value[key := value]);
    }

    method DeleteLabel(key: string)
      modifies this
      ensures Value() == old(Value()).WithoutLabel(key)
    {
      if labels.Some? {
        labels := Some(labels.value - {key});
      }
    }

    method SetAnnotation(key: AnnotationKey, value: string)
      modifies this
      ensures Value() == old(Value()).WithAnnotation(key, value)
    {
      if annotations.None? {
        annotations := Some(map[]);
      }
      annotations := Some(annotations.value[key := value]);
    }

    method DeleteAnnotation(key: AnnotationKey)
      modifies this
      ensures Value() == old(Value()).WithoutAnnotation(key)
    {
      if annotations.Some? {
        annotations := Some(annotations.value - {key});
      }
    }

    method SetBoolAnnotation(key: AnnotationKey, b: bool)
      modifies this
      ensures Value() == old(Value()).WithBoolAnnotation(key, b)
    {
      SetAnnotation(key, FormatBool(b));
    }
  }

  /** DeleteLabel on a value without labels leaves the map nil. */
  lemma DeleteLabelKeepsNil(m: Metadata, key: string)
    requires m.labels.None?
    ensures m.WithoutLabel(key) == m
  {
  }

  /** A fresh value has no label; after SetLabel("env", "prod") it reads
      back and matches; after DeleteLabel it is gone again. */
  lemma LabelScenario()
    ensures !Metadata.Empty.HasLabel("env", "prod")
    ensures Metadata.Empty.WithLabel("env", "prod").GetLabel("env") == Some("prod")
    ensures Metadata.Empty.WithLabel("env", "prod").HasLabel("env", "prod")
    ensures Metadata.Empty.WithLabel("env", "prod").WithoutLabel("env").GetLabel("env") == None
  {
  }

  /** On a non-nil label map a missing key reads as "", so HasLabel(k, "")
      holds although the key is absent; on a nil map it does not. */
  lemma MissingLabelReadsEmpty(key: string)
    ensures Metadata(Some(map[]), None).HasLabel(key, "")
    ensures !Metadata(None, None).HasLabel(key, "")
  {
  }

  /** A single-pair requirement is the single-label test. */
  lemma {:induction false} HasLabelsSingleton(m: Metadata, key: string, value: string)
    ensures m.HasLabels(map[key := value]) <==> m.HasLabel(key, value)
  {
    var req := map[key := value];
    assert key in req && |req| == 1;
  }

  /** A text that is not a bool is reported as present with an error. */
  lemma InvalidBoolScenario(m: Metadata)
    ensures m.WithAnnotation("flag2", "not-bool").GetBoolAnnotation("flag2")
         == BoolAnnotation(false, true, Some(NotABool("flag2", "not-bool")))
  {
  }
}
