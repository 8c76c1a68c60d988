/**
 * The normalization block shared by the `sirene` and `getSireneInfo`
 * handlers: from the registry document to one flat contact. Every place where
 * the handler code would raise a TypeError is a `Failure` naming the missing
 * part.
 */
module Normalizer {
  import opened Wrappers
  import opened RegistryPayload
  import StreetTypes

  /** The property access that would raise a TypeError. */
  datatype Fault =
    | MissingContent          // formality.content
    | MissingPerson           // neither personnePhysique nor personneMorale
    | MissingDescription      // identite.entrepreneur.descriptionPersonne or beneficiaire.descriptionPersonne
    | MissingGivenNames       // descriptionPersonne.prenoms
    | MissingBeneficiaries    // beneficiairesEffectifs
    | ListOfOneOrNone         // an array of at most one owner, read as if it were an object
    | MissingEstablishment    // etablissementPrincipal.descriptionEtablissement
    | MissingEnterprise       // identite.entreprise, read when there is no commercial name
    | MissingAddress          // adresseEntreprise.adresse
    | MissingStreetType       // typeVoie, upper-cased by the expander

  /** The values the handlers put in the record; names and company may be `undefined`. */
  datatype Contact = Contact(
    firstName: Option<string>,
    lastName: Option<string>,
    companyName: Option<string>,
    address: string,
    city: string,
    zip: string,
    country: string)

  /** String concatenation of a possibly missing operand: `undefined` prints as "undefined". */
  function JsText(s: Option<string>): string {
    match s
    case Some(v) => v
    case None => "undefined"
  }

  /** `prenoms[0]`: `undefined` for an empty list. */
  function FirstGivenName(prenoms: seq<string>): Option<string> {
    if |prenoms| > 0 then Some(prenoms[0]) else None
  }

  /** `typePersonne`: the physical person when present, else the moral one. */
  function SelectPerson(c: Content): Option<Person> {
    if c.personnePhysique.Some? then c.personnePhysique else c.personneMorale
  }

  /** `firstName` and `lastName` from one `descriptionPersonne`. */
  function DescriptionNames(d: Option<PersonDescription>): Result<(Option<string>, Option<string>), Fault> {
    match d
    case None => Failure(MissingDescription)
    case Some(desc) =>
      match desc.prenoms
      case None => Failure(MissingGivenNames)
      case Some(ps) => Success((desc.nom, FirstGivenName(ps)))
  }

  /** The beneficial owner read for a moral person: element 0 of a longer array, or the bare object. */
  function OwnerDescription(b: Beneficiaries): Result<Option<PersonDescription>, Fault> {
    match b
    case List(bs) => if |bs| > 1 then Success(bs[0].description) else Failure(ListOfOneOrNone)
    case Single(one) => Success(one.description)
  }

  /** The name pair: the entrepreneur for a physical person, the selected owner otherwise. */
  function PersonNames(physical: bool, p: Person): Result<(Option<string>, Option<string>), Fault> {
    if physical then DescriptionNames(p.entrepreneur)
    else
      var owners :- p.beneficiaries.ToResult(MissingBeneficiaries);
      var d :- OwnerDescription(owners);
      DescriptionNames(d)
  }

  /** `nomCommercial ?? identite.entreprise.denomination`. */
  function CompanyName(p: Person): Result<Option<string>, Fault> {
    var est :- p.establishment.ToResult(MissingEstablishment);
    if est.nomCommercial.Some? then Success(est.nomCommercial)
    else
      var ent :- p.enterprise.ToResult(MissingEnterprise);
      Success(ent.denomination)
  }

  /**
   * `numVoie + getFullTypeVoie(typeVoie) + voie ?? ''`: the `??` applies to
   * the whole sum, which is a string and never nullish.
   */
  function StreetAddress(a: PostalAddress): Result<string, Fault> {
    match a.typeVoie
    case None => Failure(MissingStreetType)
    case Some(t) => Success(JsText(a.numVoie) + StreetTypes.Expand(t) + JsText(a.voie))
  }

  /**
   * Exactly the documents the handler code reads without a TypeError, stated
   * field by field.
   */
  predicate WellShaped(f: Formality) {
    && f.content.Some?
    && var c := f.content.value;
    && (c.personnePhysique.Some? || c.personneMorale.Some?)
    && var p := if c.personnePhysique.Some? then c.personnePhysique.value else c.personneMorale.value;
    && (c.personnePhysique.Some? ==>
          p.entrepreneur.Some? && p.entrepreneur.value.prenoms.Some?)
    && (c.personnePhysique.None? ==>
          && p.beneficiaries.Some?
          && (p.beneficiaries.value.List? ==>
                |p.beneficiaries.value.entries| >= 2
                && p.beneficiaries.value.entries[0].description.Some?
                && p.beneficiaries.value.entries[0].description.value.prenoms.Some?)
          && (p.beneficiaries.value.Single? ==>
                p.beneficiaries.value.entry.description.Some?
                && p.beneficiaries.value.entry.description.value.prenoms.Some?))
    && p.establishment.Some?
    && (p.establishment.value.nomCommercial.None? ==> p.enterprise.Some?)
    && p.address.Some?
    && p.address.value.typeVoie.Some?
  }

  /** The normalization block, from `data.formality` to the record's field values. */
  function Normalize(f: Formality): (r: Result<Contact, Fault>)
    ensures r.Success? <==> WellShaped(f)
  {
    var content :- f.content.ToResult(MissingContent);
    var person :- SelectPerson(content).ToResult(MissingPerson);
    var names :- PersonNames(content.personnePhysique.Some?, person);
    var company :- CompanyName(person);
    var address :- person.address.ToResult(MissingAddress);
    var street :- StreetAddress(address);
    Success(Contact(names.0, names.1, company, street,
                    address.commune.GetOr(""), address.codePostal.GetOr(""), address.pays.GetOr("")))
  }
}

module NormalizerFacts {
  import opened Wrappers
  import opened RegistryPayload
  import opened Normalizer
  import StreetTypes
  import StreetTypeFacts

  /** A payload with neither person variant fails. */
  lemma NoVariantFails(f: Formality)
    requires f.content == Some(Content(None, None))
    ensures Normalize(f) == Failure(MissingPerson)
  {
  }

  /**
   * A physical person's names come from its entrepreneur: the family name and
   * the first given name. The beneficiaries and any moral-person object beside
   * it are never read.
   */
  lemma PhysicalPersonNames(p: Person, other: Option<Person>, owners: Option<Beneficiaries>)
    requires Normalize(Formality(Some(Content(Some(p), other)))).Success?
    ensures var c := Normalize(Formality(Some(Content(Some(p), other)))).value;
            && p.entrepreneur.Some? && p.entrepreneur.value.prenoms.Some?
            && c.firstName == p.entrepreneur.value.nom
            && c.lastName == FirstGivenName(p.entrepreneur.value.prenoms.value)
    ensures Normalize(Formality(Some(Content(Some(p), other))))
         == Normalize(Formality(Some(Content(Some(p.(beneficiaries := owners)), None))))
  {
  }

  /** A moral person with an array of two or more owners takes its names from element 0. */
  lemma OwnerListUsesFirst(p: Person, bs: seq<Beneficiary>)
    requires p.beneficiaries == Some(List(bs)) && |bs| > 1
    requires Normalize(Formality(Some(Content(None, Some(p))))).Success?
    ensures var c := Normalize(Formality(Some(Content(None, Some(p))))).value;
            && bs[0].description.Some? && bs[0].description.value.prenoms.Some?
            && c.firstName == bs[0].description.value.nom
            && c.lastName == FirstGivenName(bs[0].description.value.prenoms.value)
  {
  }

  /** A moral person with a bare owner object takes its names from that object. */
  lemma SingleOwnerUsesItself(p: Person, b: Beneficiary)
    requires p.beneficiaries == Some(Single(b))
    requires Normalize(Formality(Some(Content(None, Some(p))))).Success?
    ensures var c := Normalize(Formality(Some(Content(None, Some(p))))).value;
            && b.description.Some? && b.description.value.prenoms.Some?
            && c.firstName == b.description.value.nom
            && c.lastName == FirstGivenName(b.description.value.prenoms.value)
  {
  }

  /** An owner array of one element (or none) is read as an object and fails. */
  lemma ShortOwnerListFails(p: Person, bs: seq<Beneficiary>)
    requires p.beneficiaries == Some(List(bs)) && |bs| <= 1
    ensures Normalize(Formality(Some(Content(None, Some(p))))) == Failure(ListOfOneOrNone)
  {
  }

  /**
   * The company name is the commercial name unless that is missing (an empty
   * one is kept), then the legal denomination; city, postal code and country
   * are each their own field, or "" exactly when that field is missing.
   */
  lemma CompanyNameAndDefaults(f: Formality)
    requires Normalize(f).Success?
    ensures var p := SelectPerson(f.content.value).value;
            var c := Normalize(f).value;
            var a := p.address.value;
            && p.establishment.Some?
            && (p.establishment.value.nomCommercial.Some? ==> c.companyName == p.establishment.value.nomCommercial)
            && (p.establishment.value.nomCommercial.None? ==>
                  p.enterprise.Some? && c.companyName == p.enterprise.value.denomination)
            && (a.commune.Some? ==> c.city == a.commune.value)
            && (a.commune.None? ==> c.city == "")
            && (a.codePostal.Some? ==> c.zip == a.codePostal.value)
            && (a.codePostal.None? ==> c.zip == "")
            && (a.pays.Some? ==> c.country == a.pays.value)
            && (a.pays.None? ==> c.country == "")
  {
  }

  /**
   * The street address is the number, the expanded street type and the street
   * name run together without separators.
   */
  lemma AddressConcatenation(f: Formality)
    requires Normalize(f).Success?
    ensures var a := SelectPerson(f.content.value).value.address;
            && a.Some? && a.value.typeVoie.Some?
            && Normalize(f).value.address
               == JsText(a.value.numVoie) + StreetTypes.Expand(a.value.typeVoie.value) + JsText(a.value.voie)
  {
  }

  /**
   * A document that gets past the names, the company name and the address
   * object but has no street type fails inside the expander.
   */
  lemma MissingStreetTypeFails(f: Formality, p: Person, a: PostalAddress)
    requires f.content.Some? && SelectPerson(f.content.value) == Some(p)
    requires PersonNames(f.content.value.personnePhysique.Some?, p).Success?
    requires CompanyName(p).Success?
    requires p.address == Some(a) && a.typeVoie.None?
    ensures Normalize(f) == Failure(MissingStreetType)
  {
  }

  /** A registry entry as it typically arrives: a company with one owner given as a bare object. */
  function SampleFormality(): Formality {
    var owner := Beneficiary(Some(PersonDescription(Some("Durand"), Some(["Alice"]))));
    var address := PostalAddress(Some("12"), Some("RUE"), Some("de Paris"), Some("Lyon"), Some("69000"), Some("FR"));
    var company := Person(None, None, Some(Single(owner)), Some(Establishment(Some("ACME"))), Some(address));
    Formality(Some(Content(None, Some(company))))
  }

  /** The whole block on that entry: the street address has no separators. */
  lemma SampleNormalizes()
    ensures Normalize(SampleFormality())
         == Success(Contact(Some("Durand"), Some("Alice"), Some("ACME"), "12Ruede Paris", "Lyon", "69000", "FR"))
  {
    var address := PostalAddress(Some("12"), Some("RUE"), Some("de Paris"), Some("Lyon"), Some("69000"), Some("FR"));
    StreetTypeFacts.ExpandKey("RUE");
    assert "12" + "Rue" + "de Paris" == "12Ruede Paris";
    assert StreetAddress(address) == Success("12Ruede Paris");
  }
}
