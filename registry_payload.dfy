/**
 * The registry's company document (`GET /api/companies/{siren}`) as far as the
 * controller reads it. Nested objects whose only role is to hold the next
 * level are folded into one optional field; `None` is a missing (`undefined`)
 * or `null` value.
 */
module RegistryPayload {
  import opened Wrappers

  /** `descriptionPersonne`: the family name and the list of given names. */
  datatype PersonDescription = PersonDescription(nom: Option<string>, prenoms: Option<seq<string>>)

  /** One beneficial owner; `description` is `beneficiaire.descriptionPersonne`. */
  datatype Beneficiary = Beneficiary(description: Option<PersonDescription>)

  /** `beneficiairesEffectifs`: an array when there are several owners, a bare object otherwise. */
  datatype Beneficiaries = List(entries: seq<Beneficiary>) | Single(entry: Beneficiary)

  /** `adresseEntreprise.adresse`. */
  datatype PostalAddress = PostalAddress(
    numVoie: Option<string>,
    typeVoie: Option<string>,
    voie: Option<string>,
    commune: Option<string>,
    codePostal: Option<string>,
    pays: Option<string>)

  /** `etablissementPrincipal.descriptionEtablissement`. */
  datatype Establishment = Establishment(nomCommercial: Option<string>)

  /** `identite.entreprise`. */
  datatype Enterprise = Enterprise(denomination: Option<string>)

  /** A `personnePhysique` or `personneMorale` object. */
  datatype Person = Person(
    entrepreneur: Option<PersonDescription>,      // identite.entrepreneur.descriptionPersonne
    enterprise: Option<Enterprise>,               // identite.entreprise
    beneficiaries: Option<Beneficiaries>,         // beneficiairesEffectifs
    establishment: Option<Establishment>,         // etablissementPrincipal.descriptionEtablissement
    address: Option<PostalAddress>)               // adresseEntreprise.adresse

  /** `formality.content`: the person-type discriminator. */
  datatype Content = Content(personnePhysique: Option<Person>, personneMorale: Option<Person>)

  datatype Formality = Formality(content: Option<Content>)

  /** The reply body `data`. */
  datatype CompanyData = CompanyData(formality: Option<Formality>)
}
