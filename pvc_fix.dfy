/**
 * The manifest fix-up script: every YAML document that is a ReadWriteMany
 * PersistentVolumeClaim on the `local-path` storage class is switched to `nfs`, and the file
 * is written back only when something changed. Documents are YAML values; the Python
 * exceptions the loop can raise on odd documents are Failure results.
 */
module PvcFix {
  import opened Wrappers
  import opened Text

  /** A loaded YAML value (`yaml.safe_load_all` gives these Python objects). */
  datatype Value =
    | Null
    | Bool(b: bool)
    | Number(n: real)
    | Str(s: string)
    | List(items: seq<Value>)
    | Mapping(fields: map<string, Value>)

  /** The exceptions the rewrite loop can raise. */
  datatype PyError = AttributeError | TypeError | KeyError

  const PersistentVolumeClaim := "PersistentVolumeClaim"
  const ReadWriteMany := "ReadWriteMany"
  const LocalPath := "local-path"
  const Nfs := "nfs"

  /** Python truthiness; the first test of the condition (`doc and ...`). */
  predicate Truthy(v: Value)
  {
    match v
    case Null => false
    case Bool(b) => b
    case Number(n) => n != 0.0
    case Str(s) => s != ""
    case List(items) => items != []
    case Mapping(fields) => fields != map[]
  }

  /** `dict.get(key, default)`. */
  function Get(fields: map<string, Value>, key: string, default: Value): (v: Value)
    ensures key in fields ==> v == fields[key]
    ensures key !in fields ==> v == default
  {
    if key in fields then fields[key] else default
  }

  /** What `'ReadWriteMany' in modes` tests, for the containers that support `in`. */
  predicate MentionsReadWriteMany(modes: Value)
  {
    match modes
    case List(items) => Str(ReadWriteMany) in items
    case Str(s) => Contains(s, ReadWriteMany)
    case Mapping(fields) => ReadWriteMany in fields
    case _ => false
  }

  /** `'ReadWriteMany' in modes`: list membership, substring or key test; a TypeError otherwise. */
  function InModes(modes: Value): (r: Result<bool, PyError>)
    ensures r.Failure? <==> modes.Null? || modes.Bool? || modes.Number?
    ensures r.Failure? ==> r.error == TypeError
    ensures r.Success? ==> (r.value <==> MentionsReadWriteMany(modes))
  {
    match modes
    case List(items) => Success(Str(ReadWriteMany) in items)
    case Str(s) => Success(Contains(s, ReadWriteMany))
    case Mapping(fields) => Success(ReadWriteMany in fields)
    case _ => Failure(TypeError)
  }

  /**
   * The `if` condition, evaluated left to right with Python's short-circuit: `.get` on a
   * value that is not a dict raises AttributeError.
   */
  function Selects(doc: Value): Result<bool, PyError>
  {
    if !Truthy(doc) then Success(false)
    else if !doc.Mapping? then Failure(AttributeError)
    else if Get(doc.fields, "kind", Null) != Str(PersistentVolumeClaim) then Success(false)
    else
      var spec := Get(doc.fields, "spec", Mapping(map[]));
      if !spec.Mapping? then Failure(AttributeError)
      else match InModes(Get(spec.fields, "accessModes", List([])))
        case Failure(e) => Failure(e)
        case Success(found) =>
          if !found then Success(false)
          else Success(Get(spec.fields, "storageClassName", Null) == Str(LocalPath))
  }

  /** The condition holds (and raised nothing). */
  predicate Selected(doc: Value)
  {
    Selects(doc) == Success(true)
  }

  /** The document has a `spec` mapping to write into. */
  predicate HasSpec(doc: Value)
  {
    doc.Mapping? && "spec" in doc.fields && doc.fields["spec"].Mapping?
  }

  /**
   * A document is selected exactly when it is a PersistentVolumeClaim whose `spec` mapping
   * has access modes mentioning ReadWriteMany and the storage class `local-path`.
   */
  lemma SelectedIff(doc: Value)
    ensures Selected(doc) <==>
      && HasSpec(doc)
      && "kind" in doc.fields && doc.fields["kind"] == Str(PersistentVolumeClaim)
      && var spec := doc.fields["spec"].fields;
      && "accessModes" in spec && MentionsReadWriteMany(spec["accessModes"])
      && "storageClassName" in spec && spec["storageClassName"] == Str(LocalPath)
  {
  }

  /** A document without `spec`, or whose `spec` has no `accessModes`, is passed over without error. */
  lemma WithoutAccessModesPassedOver(doc: Value)
    requires doc.Mapping?
    requires "spec" !in doc.fields || (doc.fields["spec"].Mapping? && "accessModes" !in doc.fields["spec"].fields)
    ensures Selects(doc) == Success(false)
  {
  }

  /** `doc['spec']['storageClassName'] = 'nfs'`. */
  function Rewrite(doc: Value): (r: Value)
    requires HasSpec(doc)
    ensures HasSpec(r) && r.fields.Keys == doc.fields.Keys
    ensures forall key :: key in doc.fields && key != "spec" ==> r.fields[key] == doc.fields[key]
    ensures var before, after := doc.fields["spec"].fields, r.fields["spec"].fields;
      && after.Keys == before.Keys + {"storageClassName"}
      && after["storageClassName"] == Str(Nfs)
      && forall key :: key in before && key != "storageClassName" ==> after[key] == before[key]
  {
    var spec := doc.fields["spec"].fields;
    Mapping(doc.fields["spec" := Mapping(spec["storageClassName" := Str(Nfs)])])
  }

  /** `v[key]` for a string key: a KeyError when a dict lacks it, a TypeError on anything else. */
  function Subscript(v: Value, key: string): (r: Result<Value, PyError>)
    ensures r.Success? <==> v.Mapping? && key in v.fields
    ensures r.Success? ==> r.value == v.fields[key]
    ensures r.Failure? ==> r.error == (if v.Mapping? then KeyError else TypeError)
  {
    match v
    case Mapping(fields) => if key in fields then Success(fields[key]) else Failure(KeyError)
    case _ => Failure(TypeError)
  }

  /** The namespace and name the progress message shows, read in the f-string's order. */
  function Announce(doc: Value): Result<(Value, Value), PyError>
  {
    match Subscript(doc, "metadata")
    case Failure(e) => Failure(e)
    case Success(metadata) =>
      match Subscript(metadata, "namespace")
      case Failure(e) => Failure(e)
      case Success(namespace) =>
        match Subscript(metadata, "name")
        case Failure(e) => Failure(e)
        case Success(name) => Success((namespace, name))
  }

  /** Every document the rewrite announces is one with `metadata.namespace` and `metadata.name`. */
  lemma AnnounceIff(doc: Value)
    ensures Announce(doc).Success? <==>
      doc.Mapping? && "metadata" in doc.fields && doc.fields["metadata"].Mapping?
      && "namespace" in doc.fields["metadata"].fields && "name" in doc.fields["metadata"].fields
  {
  }

  /** One iteration of the loop: the document afterwards and whether it was changed. */
  function Step(doc: Value): (r: Result<(Value, bool), PyError>)
    ensures r.Success? ==> (r.value.1 <==> Selected(doc))
    ensures r.Success? && Selected(doc) ==> HasSpec(doc) && r.value.0 == Rewrite(doc)
    ensures r.Success? && !Selected(doc) ==> r.value.0 == doc
    ensures r.Failure? <==> Selects(doc).Failure? || (Selected(doc) && Announce(doc).Failure?)
  {
    SelectedIff(doc);
    match Selects(doc)
    case Failure(e) => Failure(e)
    case Success(selected) =>
      if !selected then Success((doc, false))
      else
        var fixed := Rewrite(doc);
        assert Subscript(fixed, "metadata") == Subscript(doc, "metadata");
        assert Announce(fixed) == Announce(doc);
        match Announce(fixed)
        case Failure(e) => Failure(e)
        case Success(_) => Success((fixed, true))
  }

  /** The loop's result over all documents: the rewritten list and the `modified` flag. */
  datatype Fixed = Fixed(docs: seq<Value>, modified: bool)

  /** What one iteration does to one document. */
  type StepFunction = Value -> Result<(Value, bool), PyError>

  /** The loop over `docs` with a given iteration: stop at the first exception, else collect. */
  function Fold(step: StepFunction, docs: seq<Value>): Result<Fixed, PyError>
  {
    if docs == [] then Success(Fixed([], false))
    else
      match Fold(step, docs[..|docs| - 1])
      case Failure(e) => Failure(e)
      case Success(prefix) =>
        match step(docs[|docs| - 1])
        case Failure(e) => Failure(e)
        case Success((doc, changed)) => Success(Fixed(prefix.docs + [doc], prefix.modified || changed))
  }

  /** The whole rewrite loop of `fix_rwx_pvcs`. */
  function FixAll(docs: seq<Value>): Result<Fixed, PyError>
  {
    Fold(Step, docs)
  }

  /** Without an exception, every document took its step, in order, and `modified` collects the changes. */
  lemma {:induction false} FoldSteps(step: StepFunction, docs: seq<Value>)
    requires Fold(step, docs).Success?
    ensures var out := Fold(step, docs).value;
      && |out.docs| == |docs|
      && (forall k :: 0 <= k < |docs| ==> step(docs[k]).Success? && out.docs[k] == step(docs[k]).value.0)
      && (out.modified <==> exists k :: 0 <= k < |docs| && step(docs[k]).value.1)
    decreases |docs|
  {
    if docs != [] {
      var init := docs[..|docs| - 1];
      FoldSteps(step, init);
      forall k | 0 <= k < |init| ensures docs[k] == init[k] {}
      if w :| 0 <= w < |docs| && step(docs[w]).value.1 {
        if w < |init| {
          assert step(init[w]).value.1;
        }
      }
    }
  }

  /** An exception is the first failing document's, and nothing before it failed. */
  lemma {:induction false} FoldFailure(step: StepFunction, docs: seq<Value>) returns (k: nat)
    requires Fold(step, docs).Failure?
    ensures k < |docs| && step(docs[k]).Failure? && Fold(step, docs).error == step(docs[k]).error
    ensures forall j :: 0 <= j < k ==> step(docs[j]).Success?
    decreases |docs|
  {
    var init := docs[..|docs| - 1];
    if Fold(step, init).Failure? {
      k := FoldFailure(step, init);
      assert init[k] == docs[k];
      assert forall j :: 0 <= j < k ==> init[j] == docs[j];
    } else {
      k := |docs| - 1;
      FoldSteps(step, init);
      assert forall j :: 0 <= j < k ==> init[j] == docs[j];
    }
  }

  /** A failure stays a failure, with the same error, as more documents follow. */
  lemma {:induction false} FoldFailureExtends(step: StepFunction, docs: seq<Value>, i: nat)
    requires i <= |docs| && Fold(step, docs[..i]).Failure?
    ensures Fold(step, docs) == Fold(step, docs[..i])
    decreases |docs| - i
  {
    if i < |docs| {
      assert docs[..i + 1][..i] == docs[..i];
      FoldFailureExtends(step, docs, i + 1);
    } else {
      assert docs[..i] == docs;
    }
  }

  /**
   * Without an exception, the documents keep their number and order, each selected one is
   * rewritten and every other kept, and `modified` says whether any was selected.
   */
  lemma FixAllShape(docs: seq<Value>)
    requires FixAll(docs).Success?
    ensures var out := FixAll(docs).value;
      && |out.docs| == |docs|
      && (forall k :: 0 <= k < |docs| ==> out.docs[k] == (if Selected(docs[k]) then Rewrite(docs[k]) else docs[k]))
      && (out.modified <==> exists k :: 0 <= k < |docs| && Selected(docs[k]))
  {
    FoldSteps(Step, docs);
    var out := FixAll(docs).value;
    if out.modified {
      var w :| 0 <= w < |docs| && Step(docs[w]).value.1;
      assert Selected(docs[w]);
    }
    if w :| 0 <= w < |docs| && Selected(docs[w]) {
      assert Step(docs[w]).value.1;
    }
  }

  /** An exception is the first document's whose condition or message fails; every earlier one went through. */
  lemma FixAllFailure(docs: seq<Value>) returns (k: nat)
    requires FixAll(docs).Failure?
    ensures k < |docs| && (Selects(docs[k]).Failure? || (Selected(docs[k]) && Announce(docs[k]).Failure?))
    ensures FixAll(docs).error == Step(docs[k]).error
    ensures forall j :: 0 <= j < k ==> Step(docs[j]).Success?
  {
    k := FoldFailure(Step, docs);
  }

  /** A rewritten claim is not selected again: `nfs` is not `local-path`. */
  lemma RewriteNotReselected(doc: Value)
    requires Selected(doc)
    ensures Step(Rewrite(doc)) == Success((Rewrite(doc), false))
  {
    SelectedIff(doc);
    var fixed := Rewrite(doc);
    assert fixed.fields["kind"] == doc.fields["kind"];
    assert fixed.fields["spec"].fields["accessModes"] == doc.fields["spec"].fields["accessModes"];
  }

  /** Running the fix on its own output changes nothing and reports no modification. */
  lemma {:induction false} FixAllIdempotent(docs: seq<Value>)
    requires FixAll(docs).Success?
    ensures FixAll(FixAll(docs).value.docs) == Success(Fixed(FixAll(docs).value.docs, false))
    decreases |docs|
  {
    if docs != [] {
      var init := docs[..|docs| - 1];
      var last := docs[|docs| - 1];
      FixAllIdempotent(init);
      var out := FixAll(docs).value.docs;
      assert out[..|out| - 1] == FixAll(init).value.docs;
      if Selected(last) {
        RewriteNotReselected(last);
      }
    }
  }

  /**
   * The loop of `fix_rwx_pvcs`, rewriting the loaded documents in place and returning the
   * `modified` flag, or the exception that escapes it.
   */
  method FixDocuments(docs: array<Value>) returns (result: Result<bool, PyError>)
    modifies docs
    ensures FixAll(old(docs[..])).Success? ==>
      result == Success(FixAll(old(docs[..])).value.modified) && docs[..] == FixAll(old(docs[..])).value.docs
    ensures FixAll(old(docs[..])).Failure? ==> result == Failure(FixAll(old(docs[..])).error)
  {
    ghost var original := docs[..];
    var modified := false;
    var i := 0;
    while i < docs.Length
      invariant 0 <= i <= docs.Length
      invariant docs[i..] == original[i..]
      invariant FixAll(original[..i]) == Success(Fixed(docs[..i], modified))
    {
      var doc := docs[i];
      assert original[..i + 1][..i] == original[..i] && original[i] == doc;
      var selected := Selects(doc);
      if selected.Failure? {
        FoldFailureExtends(Step, original, i + 1);
        return Failure(selected.error);
      }
      if selected.value {
        docs[i] := Rewrite(doc);
        modified := true;
        var shown := Announce(docs[i]);
        if shown.Failure? {
          FoldFailureExtends(Step, original, i + 1);
          return Failure(shown.error);
        }
      }
      assert docs[..i + 1] == docs[..i] + [docs[i]];
      i := i + 1;
    }
    assert original[..i] == original;
    return Success(modified);
  }

  /**
   * `fix_rwx_pvcs` on the loaded documents: what it returns (or raises) and the documents it
   * writes back, which happens only when something was modified.
   */
  method FixFile(docs: seq<Value>) returns (returned: Result<bool, PyError>, written: Option<seq<Value>>)
    ensures returned.Success? <==> FixAll(docs).Success?
    ensures returned.Success? ==> returned.value == FixAll(docs).value.modified
    ensures returned.Failure? ==> returned.error == FixAll(docs).error && written.None?
    ensures written.Some? <==> returned == Success(true)
    ensures written.Some? ==> written.value == FixAll(docs).value.docs
  {
    var loaded := new Value[|docs|](i requires 0 <= i < |docs| => docs[i]);
    assert loaded[..] == docs;
    returned := FixDocuments(loaded);
    written := if returned == Success(true) then Some(loaded[..]) else None;
  }
}
