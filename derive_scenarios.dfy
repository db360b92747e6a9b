/** The declarations of the derive's documented example and of its compile-fail
    tests, with what the derive makes of each. */
module DeriveScenarios {
  import opened FieldTypes
  import opened Derive

  const NoAttrs: TypeAttrs := TypeAttrs(None, None)

  /** `company_name: String` and `num_employees: i32`, unannotated, as every
      declaration below starts. */
  const CompanyPrefix: seq<FieldDecl> := [
    FieldDecl("company_name", String, []),
    FieldDecl("num_employees", I32, [])
  ]

  /** The documented `Company`: collection "companies", sorted by `num_employees`,
      `country` a facet. */
  function DocCompany(): StructDecl {
    StructDecl(
      "Company",
      TypeAttrs(Some("companies"), Some(StrLit("num_employees"))),
      CompanyPrefix + [FieldDecl("country", String, [FacetKey])])
  }

  lemma DocCompanyAccepted()
    ensures BuildSchema(DocCompany()) == Ok(Schema(
      Some("companies"),
      [ FieldSchema("company_name", "string", false),
        FieldSchema("num_employees", "int32", false),
        FieldSchema("country", "string", true) ],
      Some("num_employees")))
  {
    var s := DocCompany();
    assert FieldValid(s.fields[0]) && FieldValid(s.fields[1]);
    assert FieldValid(s.fields[2]) by {
      KeysValidIffAtMostOneFacet(s.fields[2].keys);
    }
    assert HasField(s.fields, "num_employees") by {
      assert s.fields[1].name == "num_employees";
    }
    var r := BuildSchema(s);
    assert r.Ok?;
    var fs := r.value.fields;
    assert fs[0] == FieldSchema("company_name", "string", false) by {
      assert Describes(fs[0], s.fields[0]);
    }
    assert fs[1] == FieldSchema("num_employees", "int32", false) by {
      assert Describes(fs[1], s.fields[1]);
    }
    assert fs[2] == FieldSchema("country", "string", true) by {
      assert Describes(fs[2], s.fields[2]);
    }
    assert |fs| == 3;
    assert fs == [fs[0], fs[1], fs[2]];
    assert r.value.collectionName == Some("companies");
    assert r.value.defaultSortingField == Some("num_employees");
  }

  /** `#[fastsearch(facet)]` written twice on `country_code`. */
  lemma DuplicatedAttributeRejected()
    ensures BuildSchema(StructDecl("Company", NoAttrs,
      CompanyPrefix + [FieldDecl("country_code", String, [FacetKey, FacetKey])]))
      == Err(DuplicateAttribute("country_code", FacetKey))
  {
    DuplicateFacetReported(StructDecl("Company", NoAttrs,
      CompanyPrefix + [FieldDecl("country_code", String, [FacetKey, FacetKey])]), 2);
  }

  /** `default_sorting_field = company_name`: an identifier, not a string literal,
      although it names an existing field. */
  lemma NonStrLiteralDefaultFieldRejected()
    ensures BuildSchema(StructDecl("Company", TypeAttrs(None, Some(Ident("company_name"))),
      CompanyPrefix + [FieldDecl("country", String, [FacetKey])]))
      == Err(NonLiteralAttributeValue(SortKey))
  {
  }

  /** `#[fastsearch(facets)]` on `country`: reported whatever fields follow it. */
  lemma {:induction false} UnknownAttributeRejected(rest: seq<FieldDecl>)
    ensures BuildSchema(StructDecl("Company", NoAttrs,
      CompanyPrefix + [FieldDecl("country", String, ["facets"])] + rest))
      == Err(UnknownAttribute("country", "facets"))
  {
    var s := StructDecl("Company", NoAttrs,
      CompanyPrefix + [FieldDecl("country", String, ["facets"])] + rest);
    assert s.fields[2] == FieldDecl("country", String, ["facets"]);
    assert s.fields[0] == CompanyPrefix[0] && s.fields[1] == CompanyPrefix[1];
    UnknownKeyReported(s, 2, "facets");
  }

  /** `default_sorting_field = "wrong_field"` with no such field. */
  lemma WrongSortingFieldRejected()
    ensures BuildSchema(StructDecl("Company", TypeAttrs(None, Some(StrLit("wrong_field"))),
      CompanyPrefix + [FieldDecl("country", String, [])]))
      == Err(DanglingSortField("Company", "wrong_field"))
  {
    var s := StructDecl("Company", TypeAttrs(None, Some(StrLit("wrong_field"))),
      CompanyPrefix + [FieldDecl("country", String, [])]);
    assert !HasField(s.fields, "wrong_field") by {
      forall i | 0 <= i < |s.fields| ensures s.fields[i].name != "wrong_field" {
        assert s.fields[i].name[0] != 'w';
      }
    }
    SortFieldExistence(s, "wrong_field");
  }

  /** A field type without a tag is only found once the derive has accepted the
      declaration: a later field's misspelt key is what gets reported. */
  lemma {:induction false} AttributeFaultBeforeTypeFault()
    ensures BuildSchema(StructDecl("Doc", NoAttrs,
      [FieldDecl("a", Vec(Vec(I8)), []), FieldDecl("b", String, ["facets"])]))
      == Err(UnknownAttribute("b", "facets"))
  {
    UnknownKeyReported(StructDecl("Doc", NoAttrs,
      [FieldDecl("a", Vec(Vec(I8)), []), FieldDecl("b", String, ["facets"])]), 1, "facets");
  }

  /** Likewise a dangling sort field is reported ahead of a type without a tag. */
  lemma DanglingSortFieldBeforeTypeFault()
    ensures BuildSchema(StructDecl("Doc", TypeAttrs(None, Some(StrLit("zz"))),
      [FieldDecl("a", Vec(Vec(I8)), [])]))
      == Err(DanglingSortField("Doc", "zz"))
  {
    var s := StructDecl("Doc", TypeAttrs(None, Some(StrLit("zz"))), [FieldDecl("a", Vec(Vec(I8)), [])]);
    assert !HasField(s.fields, "zz") by {
      assert s.fields[0].name[0] != 'z';
    }
    SortFieldExistence(s, "zz");
  }
}
