/** Print templates: at most one template of each type is the default;
    the default cannot be deleted; `get_default_template` creates one when
    a type has none. */
module PrintTemplates {
  import opened Wrappers
  import opened Text

  type TemplateId = nat

  datatype Template = Template(name: string, kind: string, content: string, isDefault: bool)

  /** No two templates of one type are both the default. */
  predicate OneDefaultPerKind(ts: map<TemplateId, Template>) {
    forall a, b :: a in ts && b in ts && ts[a].isDefault && ts[b].isDefault && ts[a].kind == ts[b].kind ==> a == b
  }

  /** The bulk update that takes the default flag off every template of
      `kind` except `keep`. */
  function ClearDefaults(ts: map<TemplateId, Template>, kind: string, keep: TemplateId): map<TemplateId, Template> {
    map id | id in ts :: if id != keep && ts[id].kind == kind then ts[id].(isDefault := false) else ts[id]
  }

  /** Storing a template under `id` after clearing the other defaults of
      its type keeps at most one default per type, whatever the table held
      for that type before; templates lose at most their flag. */
  lemma {:induction false} ClearThenStore(ts: map<TemplateId, Template>, id: TemplateId, t: Template)
    requires OneDefaultPerKind(ts)
    ensures OneDefaultPerKind(ClearDefaults(ts, t.kind, id)[id := t])
    ensures forall k :: k in ts && k != id ==>
      ClearDefaults(ts, t.kind, id)[k] == ts[k].(isDefault := ts[k].isDefault && ts[k].kind != t.kind)
  {
    var cleared := ClearDefaults(ts, t.kind, id);
    var after := cleared[id := t];
    forall a, b | a in after && b in after && after[a].isDefault && after[b].isDefault && after[a].kind == after[b].kind
      ensures a == b
    {
      if a != id && b != id {
        assert cleared[a] == ts[a].(isDefault := ts[a].isDefault && ts[a].kind != t.kind);
        assert cleared[b] == ts[b].(isDefault := ts[b].isDefault && ts[b].kind != t.kind);
      }
    }
  }

  /** A template stored without the default flag keeps at most one
      default per type. */
  lemma {:induction false} StoreNonDefault(ts: map<TemplateId, Template>, id: TemplateId, t: Template)
    requires OneDefaultPerKind(ts) && !t.isDefault
    ensures OneDefaultPerKind(ts[id := t])
  {
    var after := ts[id := t];
    forall a, b | a in after && b in after && after[a].isDefault && after[b].isDefault && after[a].kind == after[b].kind
      ensures a == b
    {
      assert a != id && b != id;
      assert after[a] == ts[a] && after[b] == ts[b];
    }
  }

  /** The name given to a generated default: "Default Invoice Template". */
  function DefaultName(kind: string): string {
    "Default " + Title(kind) + " Template"
  }

  /** `title()` of a lower-case word capitalises its first letter only. */
  lemma TitleOfLowerWord(c: char, rest: string)
    requires 'a' <= c <= 'z'
    requires forall i :: 0 <= i < |rest| ==> 'a' <= rest[i] <= 'z'
    ensures Title([c] + rest) == [Upper(c)] + rest
  {
    assert ([c] + rest)[1..] == rest;
    LowerRunKept(rest);
  }

  lemma {:induction false} LowerRunKept(s: string)
    requires forall i :: 0 <= i < |s| ==> 'a' <= s[i] <= 'z'
    ensures TitleFrom(s, true) == s
  {
    if s != [] {
      LowerRunKept(s[1..]);
    }
  }

  class TemplateRegistry {
    var templates: map<TemplateId, Template>
    var nextId: nat

    ghost predicate Valid()
      reads this
    {
      (forall id :: id in templates ==> id < nextId) && OneDefaultPerKind(templates)
    }

    constructor ()
      ensures Valid() && templates == map[] && nextId == 1
    {
      templates := map[];
      nextId := 1;
    }

    /** `new_print_template`: a new default first takes the flag off the
        other templates of its type. */
    method New(name: string, kind: string, content: string, isDefault: bool) returns (id: TemplateId)
      requires Valid()
      modifies this
      ensures Valid()
      ensures id == old(nextId) && id !in old(templates) && nextId == old(nextId) + 1
      ensures templates ==
        (if isDefault then ClearDefaults(old(templates), kind, id) else old(templates))[id := Template(name, kind, content, isDefault)]
    {
      id := nextId;
      var t := Template(name, kind, content, isDefault);
      if isDefault {
        ClearThenStore(templates, id, t);
        templates := ClearDefaults(templates, kind, id)[id := t];
      } else {
        StoreNonDefault(templates, id, t);
        templates := templates[id := t];
      }
      nextId := nextId + 1;
    }

    /** `print_template` PUT: name, content and flag are replaced, the
        type is kept; becoming the default takes the flag off the other
        templates of that type.  Unsetting the flag may leave a type with
        no default. */
    method Edit(id: TemplateId, name: string, content: string, isDefault: bool) returns (r: Outcome)
      requires Valid()
      modifies this
      ensures Valid()
      ensures r.Fail? <==> id !in old(templates)
      ensures r.Fail? ==> r.error == NotFound && unchanged(this)
      ensures r.Ok? ==>
        var t := old(templates)[id].(name := name, content := content, isDefault := isDefault);
        && templates == (if isDefault then ClearDefaults(old(templates), t.kind, id) else old(templates))[id := t]
        && nextId == old(nextId)
    {
      if id !in templates {
        return Fail(NotFound);
      }
      var t := templates[id].(name := name, content := content, isDefault := isDefault);
      if isDefault {
        ClearThenStore(templates, id, t);
        templates := ClearDefaults(templates, t.kind, id)[id := t];
      } else {
        StoreNonDefault(templates, id, t);
        templates := templates[id := t];
      }
      r := Ok;
    }

    /** `delete_print_template` (and the DELETE branch of
        `print_template`): the default template cannot be deleted. */
    method Delete(id: TemplateId) returns (r: Outcome)
      requires Valid()
      modifies this
      ensures Valid()
      ensures r.Fail? ==> unchanged(this)
      ensures id !in old(templates) ==> r == Fail(NotFound)
      ensures id in old(templates) && old(templates)[id].isDefault ==> r == Fail(Conflict("Cannot delete default template"))
      ensures r.Ok? <==> id in old(templates) && !old(templates)[id].isDefault
      ensures r.Ok? ==> templates == old(templates) - {id} && nextId == old(nextId)
    {
      if id !in templates {
        return Fail(NotFound);
      }
      if templates[id].isDefault {
        return Fail(Conflict("Cannot delete default template"));
      }
      templates := templates - {id};
      r := Ok;
    }

    /** `get_default_template`: the default of the type, created from
        `content` (the bundled template file) when the type has none. */
    method GetDefault(kind: string, content: string) returns (id: TemplateId)
      requires Valid()
      modifies this
      ensures Valid()
      ensures id in templates && templates[id].isDefault && templates[id].kind == kind
      ensures forall k :: k in templates && templates[k].isDefault && templates[k].kind == kind ==> k == id
      ensures id in old(templates) ==> templates == old(templates) && nextId == old(nextId)
      ensures id !in old(templates) ==>
        && (forall k :: k in old(templates) ==> !(old(templates)[k].isDefault && old(templates)[k].kind == kind))
        && id == old(nextId) && nextId == old(nextId) + 1
        && templates == old(templates)[id := Template(DefaultName(kind), kind, content, true)]
    {
      if exists k :: k in templates && templates[k].isDefault && templates[k].kind == kind {
        id :| id in templates && templates[id].isDefault && templates[id].kind == kind;
        return;
      }
      id := nextId;
      var t := Template(DefaultName(kind), kind, content, true);
      templates := templates[id := t];
      nextId := nextId + 1;
    }
  }

  /** The generated names for the two template types. */
  lemma DefaultNames()
    ensures DefaultName("invoice") == "Default Invoice Template"
    ensures DefaultName("summary") == "Default Summary Template"
  {
    TitleOfLowerWord('i', "nvoice");
    TitleOfLowerWord('s', "ummary");
  }
}
