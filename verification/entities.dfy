/** The entity catalogue builder: turns the declared entities into
    `Name.attr` attribute identifiers, keyed by entity name. */
module EntityCatalogue {
  import opened MetricTypes

  /** One entry of the `entities` list; a key the document leaves out is None. */
  datatype EntityDecl = EntityDecl(name: Option<string>, nanoentities: Option<seq<string>>)

  /** The decoded entity document; `entities` is None when the key is absent. */
  datatype EntityDocument = EntityDocument(entities: Option<seq<EntityDecl>>)

  datatype EntityError = MissingEntitiesKey | IncompleteEntity

  predicate Complete(d: EntityDecl) {
    d.name.Some? && d.nanoentities.Some?
  }

  predicate AllComplete(decls: seq<EntityDecl>) {
    forall i :: 0 <= i < |decls| ==> Complete(decls[i])
  }

  /** The identifiers `name.attr`, one per attribute, in attribute order. */
  function Qualify(name: string, attrs: seq<string>): seq<string>
  {
    if attrs == [] then [] else [name + "." + attrs[0]] + Qualify(name, attrs[1..])
  }

  /** Recovers the attribute names by removing the `name.` prefix. An
      identifier shorter than the prefix, which `Qualify` never produces, is
      kept whole; that branch only makes the function total. */
  function Unqualify(name: string, ids: seq<string>): seq<string>
  {
    if ids == [] then []
    else if |ids[0]| < |name| + 1 then [ids[0]] + Unqualify(name, ids[1..])
    else [ids[0][|name| + 1..]] + Unqualify(name, ids[1..])
  }

  /** Each identifier is the entity name, a dot and the attribute at the same position. */
  lemma {:induction false} QualifyPointwise(name: string, attrs: seq<string>)
    ensures |Qualify(name, attrs)| == |attrs|
    ensures forall i :: 0 <= i < |attrs| ==> Qualify(name, attrs)[i] == name + "." + attrs[i]
  {
    if attrs != [] {
      QualifyPointwise(name, attrs[1..]);
    }
  }

  /** Stripping the `name.` prefix gives back the attribute list. */
  lemma {:induction false} QualifyRoundTrip(name: string, attrs: seq<string>)
    ensures Unqualify(name, Qualify(name, attrs)) == attrs
  {
    if attrs != [] {
      var id := name + "." + attrs[0];
      assert id[|name| + 1..] == attrs[0];
      QualifyRoundTrip(name, attrs[1..]);
    }
  }

  /** The catalogue the loop builds: entities in order, a later entity with
      the same name replacing an earlier one. */
  function EntitiesFrom(decls: seq<EntityDecl>): map<string, seq<string>>
    requires AllComplete(decls)
  {
    if decls == [] then map[]
    else
      var d := decls[|decls| - 1];
      EntitiesFrom(decls[..|decls| - 1])[d.name.value := Qualify(d.name.value, d.nanoentities.value)]
  }

  /** No entity after position j carries the same name as the one at j. */
  predicate LastWithName(decls: seq<EntityDecl>, j: int)
    requires 0 <= j < |decls|
  {
    forall k :: j < k < |decls| ==> decls[k].name != decls[j].name
  }

  /** The catalogue's keys are exactly the declared entity names. */
  lemma {:induction false} CatalogueKeys(decls: seq<EntityDecl>)
    requires AllComplete(decls)
    ensures EntitiesFrom(decls).Keys == set i | 0 <= i < |decls| :: decls[i].name.value
  {
    if decls != [] {
      var n := |decls| - 1;
      var init := decls[..n];
      CatalogueKeys(init);
      assert forall i :: 0 <= i < n ==> init[i] == decls[i];
      assert (set i | 0 <= i < |decls| :: decls[i].name.value)
          == (set i | 0 <= i < n :: init[i].name.value) + {decls[n].name.value};
    }
  }

  /** A name maps to the qualified attributes of the LAST declaration carrying it. */
  lemma {:induction false} LastDeclarationWins(decls: seq<EntityDecl>, j: int)
    requires AllComplete(decls)
    requires 0 <= j < |decls| && LastWithName(decls, j)
    ensures decls[j].name.value in EntitiesFrom(decls)
    ensures EntitiesFrom(decls)[decls[j].name.value] ==
              Qualify(decls[j].name.value, decls[j].nanoentities.value)
  {
    var n := |decls| - 1;
    if j < n {
      var init := decls[..n];
      assert decls[n].name != decls[j].name;
      assert LastWithName(init, j) by {
        forall k | j < k < n ensures init[k].name != init[j].name {
          assert init[k] == decls[k];
        }
      }
      LastDeclarationWins(init, j);
    }
  }

  /** `_parse_entities`: fails when the `entities` key is missing or when an
      entity lacks `name` or `nanoentities`; otherwise builds the catalogue. */
  method ParseEntities(doc: EntityDocument) returns (r: Result<map<string, seq<string>>, EntityError>)
    ensures doc.entities.None? ==> r == Failure(MissingEntitiesKey)
    ensures doc.entities.Some? && AllComplete(doc.entities.value) ==>
              r == Success(EntitiesFrom(doc.entities.value))
    ensures doc.entities.Some? && !AllComplete(doc.entities.value) ==>
              r == Failure(IncompleteEntity)
  {
    if doc.entities.None? {
      return Failure(MissingEntitiesKey);
    }
    var decls := doc.entities.value;
    var entities: map<string, seq<string>> := map[];
    for i := 0 to |decls|
      invariant AllComplete(decls[..i])
      invariant entities == EntitiesFrom(decls[..i])
    {
      var entity := decls[i];
      if !Complete(entity) {
        return Failure(IncompleteEntity);
      }
      var fullName := entity.name.value;
      assert decls[..i + 1][..i] == decls[..i];
      entities := entities[fullName := Qualify(fullName, entity.nanoentities.value)];
    }
    assert decls[..|decls|] == decls;
    return Success(entities);
  }
}
