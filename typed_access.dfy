/** Generic typed access to one annotation through a descriptor: `Get`
    distinguishes absent, invalid and valid; `Set` formats and stores. */
module TypedAccess {
  import opened Wrappers
  import opened Constant
  import opened MetadataTypes

  /** The `(T, bool, error)` triple that Get returns. */
  datatype Got<T> = Got(value: T, present: bool, err: Option<ParseError>)

  /** Get: `zero` is Go's zero value of T, returned whenever there is no
      valid value. A nil metadata pointer is `None`. */
  function Get<T>(m: Option<Metadata>, d: AnnotationDescriptor<T>, zero: T): (r: Got<T>)
    ensures r.present <==> m.Some? && m.value.GetAnnotation(d.key).Some?
    ensures !r.present ==> r == Got(zero, false, None)
    ensures r.present && d.parse(m.value.GetAnnotation(d.key).value).err.Some? ==>
              r == Got(zero, true, d.parse(m.value.GetAnnotation(d.key).value).err)
    ensures r.present && d.parse(m.value.GetAnnotation(d.key).value).err.None? ==>
              r == Got(d.parse(m.value.GetAnnotation(d.key).value).value, true, None)
  {
    if m.None? then Got(zero, false, None)
    else
      match m.value.GetAnnotation(d.key)
      case None => Got(zero, false, None)
      case Some(raw) =>
        var parsed := d.parse(raw);
        if parsed.err.Some? then Got(zero, true, parsed.err) else Got(parsed.value, true, None)
  }

  /** Set: does nothing on a nil pointer; otherwise stores `d.format(v)`
      under `d.key`, allocating the annotation map when needed. */
  method Set<T>(m: MetadataRef?, d: AnnotationDescriptor<T>, v: T)
    modifies m
    ensures m != null ==> m.Value() == old(m.Value()).WithAnnotation(d.key, d.format(v))
  {
    if m == null {
      return;
    }
    m.SetAnnotation(d.key, d.format(v));
  }

  /** For any descriptor whose Parse inverts its Format at `v`, Set then Get
      yields `(v, true, nil)`, and labels and other annotations are kept. */
  lemma SetThenGet<T>(m: Metadata, d: AnnotationDescriptor<T>, v: T, zero: T)
    requires d.parse(d.format(v)) == Parsed(v, None)
    ensures Get(Some(m.WithAnnotation(d.key, d.format(v))), d, zero) == Got(v, true, None)
    ensures m.WithAnnotation(d.key, d.format(v)).labels == m.labels
  {
  }

  lemma BoolSetThenGet(m: Metadata, key: AnnotationKey, b: bool)
    ensures var d := NewBoolAnnotationDesc(key);
            Get(Some(m.WithAnnotation(key, d.format(b))), d, false) == Got(b, true, None)
  {
    SetThenGet(m, NewBoolAnnotationDesc(key), b, false);
  }

  lemma UUIDSetThenGet(m: Metadata, key: AnnotationKey, u: string)
    requires IsCanonicalUUID(u)
    ensures var d := NewUUIDAnnotationDesc(key);
            Get(Some(m.WithAnnotation(key, d.format(u))), d, "") == Got(u, true, None)
  {
    SetThenGet(m, NewUUIDAnnotationDesc(key), u, "");
  }

  lemma StringSetThenGet(m: Metadata, key: AnnotationKey, s: string)
    ensures var d := NewStringAnnotationDesc(key);
            Get(Some(m.WithAnnotation(key, d.format(s))), d, "") == Got(s, true, None)
  {
    SetThenGet(m, NewStringAnnotationDesc(key), s, "");
  }

  lemma EnumSetThenGet(m: Metadata, key: AnnotationKey, allowed: seq<string>, v: string)
    requires v in allowed
    ensures var d := NewEnumAnnotationDesc(key, allowed);
            Get(Some(m.WithAnnotation(key, d.format(v))), d, "") == Got(v, true, None)
  {
    SetThenGet(m, NewEnumAnnotationDesc(key, allowed), v, "");
  }

  /** Absent and invalid are told apart: a key never written is not present,
      a bool annotation holding "not-bool" is present with an error. */
  lemma AbsentVersusInvalid(key: AnnotationKey)
    ensures Get(Some(Metadata.Empty), NewBoolAnnotationDesc(key), false) == Got(false, false, None)
    ensures Get(Some(Metadata.Empty.WithAnnotation(key, "not-bool")), NewBoolAnnotationDesc(key), false)
         == Got(false, true, Some(InvalidBool("not-bool")))
    ensures Get(Some(Metadata.Empty.WithAnnotation(key, "bad-uuid")), NewUUIDAnnotationDesc(key), "")
         == Got("", true, Some(InvalidUUID("bad-uuid")))
  {
    UUIDSamples();
  }

  /** The bool descriptor read through Get and the Metadata's own
      GetBoolAnnotation agree on value, presence and whether there is an error. */
  lemma {:induction false} BoolDescriptorMatchesGetBoolAnnotation(m: Metadata, key: AnnotationKey)
    ensures var g := Get(Some(m), NewBoolAnnotationDesc(key), false);
            var b := m.GetBoolAnnotation(key);
            g.value == b.value && g.present == b.present && (g.err.None? <==> b.err.None?)
  {
    var d := NewBoolAnnotationDesc(key);
    match m.GetAnnotation(key)
    case None =>
    case Some(raw) =>
      assert d.parse(raw).err.None? <==> raw == "true" || raw == "false";
  }
}
