/** The names under which the projector records what it has projected, and why they never collide. */
module Names {
  const SERVICE_BINDING_ROOT := "SERVICE_BINDING_ROOT"
  const DEFAULT_ROOT := "/bindings"
  const GROUP := "projector.servicebinding.io"
  const VOLUME_PREFIX := "servicebinding-"
  const SECRET_ANNOTATION_PREFIX := GROUP + "/secret-"
  const TYPE_ANNOTATION_PREFIX := GROUP + "/type-"
  const PROVIDER_ANNOTATION_PREFIX := GROUP + "/provider-"
  const ANNOTATION_FIELD := "metadata.annotations['"
  const FIELD_PATH_PREFIX := ANNOTATION_FIELD + GROUP

  function VolumeName(uid: string): string
  {
    VOLUME_PREFIX + uid
  }

  function SecretAnnotation(uid: string): string
  {
    SECRET_ANNOTATION_PREFIX + uid
  }

  function TypeAnnotation(uid: string): string
  {
    TYPE_ANNOTATION_PREFIX + uid
  }

  function ProviderAnnotation(uid: string): string
  {
    PROVIDER_ANNOTATION_PREFIX + uid
  }

  /** The field path that reads an annotation through the downward API. */
  function FieldPath(annotation: string): string
  {
    ANNOTATION_FIELD + annotation + "']"
  }

  /** The prefixes, written out. */
  lemma PrefixesSpelled()
    ensures SECRET_ANNOTATION_PREFIX == "projector.servicebinding.io/secret-"
    ensures TYPE_ANNOTATION_PREFIX == "projector.servicebinding.io/type-"
    ensures PROVIDER_ANNOTATION_PREFIX == "projector.servicebinding.io/provider-"
  {
  }

  lemma FieldPathPrefixSpelled()
    ensures FIELD_PATH_PREFIX == "metadata.annotations['projector.servicebinding.io"
  {
  }

  lemma Cancel(p: string, a: string, b: string)
    requires p + a == p + b
    ensures a == b
  {
    assert (p + a)[|p|..] == a && (p + b)[|p|..] == b;
  }

  lemma FieldPathInjective(a: string, b: string)
    requires FieldPath(a) == FieldPath(b)
    ensures a == b
  {
    var p := ANNOTATION_FIELD;
    var x, y := FieldPath(a), FieldPath(b);
    assert x[|p|..|x| - 2] == a && y[|p|..|y| - 2] == b;
  }

  /** The kind of annotation can be read off one letter of its name. */
  lemma KindLetters(uid: string)
    ensures |SecretAnnotation(uid)| > 28 && SecretAnnotation(uid)[28] == 's'
    ensures |TypeAnnotation(uid)| > 28 && TypeAnnotation(uid)[28] == 't'
    ensures |ProviderAnnotation(uid)| > 28 && ProviderAnnotation(uid)[28] == 'p'
  {
    assert |GROUP| == 27;
    assert SecretAnnotation(uid)[28] == SECRET_ANNOTATION_PREFIX[28] == "/secret-"[1];
    assert TypeAnnotation(uid)[28] == TYPE_ANNOTATION_PREFIX[28] == "/type-"[1];
    assert ProviderAnnotation(uid)[28] == PROVIDER_ANNOTATION_PREFIX[28] == "/provider-"[1];
  }

  /** No two bindings share a name, and no name of one kind is a name of another. */
  lemma NamesAreDistinct(u: string, w: string)
    ensures SecretAnnotation(u) == SecretAnnotation(w) ==> u == w
    ensures TypeAnnotation(u) == TypeAnnotation(w) ==> u == w
    ensures ProviderAnnotation(u) == ProviderAnnotation(w) ==> u == w
    ensures VolumeName(u) == VolumeName(w) ==> u == w
    ensures SecretAnnotation(u) != TypeAnnotation(w)
    ensures SecretAnnotation(u) != ProviderAnnotation(w)
    ensures TypeAnnotation(u) != ProviderAnnotation(w)
  {
    if SecretAnnotation(u) == SecretAnnotation(w) { Cancel(SECRET_ANNOTATION_PREFIX, u, w); }
    if TypeAnnotation(u) == TypeAnnotation(w) { Cancel(TYPE_ANNOTATION_PREFIX, u, w); }
    if ProviderAnnotation(u) == ProviderAnnotation(w) { Cancel(PROVIDER_ANNOTATION_PREFIX, u, w); }
    if VolumeName(u) == VolumeName(w) { Cancel(VOLUME_PREFIX, u, w); }
    KindLetters(u);
    KindLetters(w);
  }

  /** The same for the field paths that point at those annotations. */
  lemma FieldPathsAreDistinct(u: string, w: string)
    ensures FieldPath(TypeAnnotation(u)) == FieldPath(TypeAnnotation(w)) ==> u == w
    ensures FieldPath(ProviderAnnotation(u)) == FieldPath(ProviderAnnotation(w)) ==> u == w
    ensures FieldPath(TypeAnnotation(u)) != FieldPath(ProviderAnnotation(w))
  {
    NamesAreDistinct(u, w);
    if FieldPath(TypeAnnotation(u)) == FieldPath(TypeAnnotation(w)) {
      FieldPathInjective(TypeAnnotation(u), TypeAnnotation(w));
    }
    if FieldPath(ProviderAnnotation(u)) == FieldPath(ProviderAnnotation(w)) {
      FieldPathInjective(ProviderAnnotation(u), ProviderAnnotation(w));
    }
    if FieldPath(TypeAnnotation(u)) == FieldPath(ProviderAnnotation(w)) {
      FieldPathInjective(TypeAnnotation(u), ProviderAnnotation(w));
    }
  }

  /** The prefix tests recognise the projector's own names. */
  lemma PrefixesRecognise(uid: string)
    ensures VOLUME_PREFIX <= VolumeName(uid)
    ensures SECRET_ANNOTATION_PREFIX <= SecretAnnotation(uid)
    ensures !(SECRET_ANNOTATION_PREFIX <= TypeAnnotation(uid))
    ensures !(SECRET_ANNOTATION_PREFIX <= ProviderAnnotation(uid))
    ensures FIELD_PATH_PREFIX <= FieldPath(TypeAnnotation(uid))
    ensures FIELD_PATH_PREFIX <= FieldPath(ProviderAnnotation(uid))
  {
    KindLetters(uid);
    KindLetters("");
    assert SECRET_ANNOTATION_PREFIX == SecretAnnotation("");
    assert FieldPath(TypeAnnotation(uid)) == FIELD_PATH_PREFIX + ("/type-" + uid + "']");
    assert FieldPath(ProviderAnnotation(uid)) == FIELD_PATH_PREFIX + ("/provider-" + uid + "']");
  }

  /** What passes the volume or the secret prefix test is the volume name or the secret annotation of one binding. */
  lemma PrefixesRecogniseOnly(name: string)
    ensures VOLUME_PREFIX <= name <==> exists uid :: name == VolumeName(uid)
    ensures SECRET_ANNOTATION_PREFIX <= name <==> exists uid :: name == SecretAnnotation(uid)
  {
    if VOLUME_PREFIX <= name {
      assert name == VolumeName(name[|VOLUME_PREFIX|..]);
    }
    if SECRET_ANNOTATION_PREFIX <= name {
      assert name == SecretAnnotation(name[|SECRET_ANNOTATION_PREFIX|..]);
    }
  }
}
