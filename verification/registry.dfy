/** Bootstrap: which locale bundle a language selects, the Guice binding
    tables of the bundles whose modules are part of this model, and the
    Builder that gathers the locale, data-file prefix, seed and catalog
    before building. A Locale is represented by its language code. */
module Registry {
  import opened Wrappers
  import opened Chars
  import opened Languages
  import opened Catalog

  const DATA_FILE_PREFIX: string := "seed"
  /** Locale.ENGLISH.getLanguage() */
  const ENGLISH: string := "en"

  /** The locale modules (SwGenatorModule, PlGenatorModule, ...). */
  datatype Bundle = SwBundle | PlBundle | EnBundle | EsBundle | FrBundle | SvBundle | ZhBundle | DeBundle | KaBundle

  /** LanguageCode.valueOf(language.toUpperCase()), with EN when no
      constant has that name. */
  function ParseLanguage(language: string): (r: LanguageCode)
    ensures FromName(Upper(language)).Some? ==> Name(r) == Upper(language)
    ensures FromName(Upper(language)).None? ==> r == EN
  {
    match FromName(Upper(language))
    case Some(code) => code
    case None => EN
  }

  /** The switch over the language code; a code without a case (IT) falls
      to the default EN bundle. */
  function BundleFor(code: LanguageCode): Bundle {
    match code
    case SW => SwBundle case PL => PlBundle case EN => EnBundle case ES => EsBundle
    case FR => FrBundle case SV => SvBundle case ZH => ZhBundle case DE => DeBundle
    case KA => KaBundle case IT => EnBundle
  }

  /** getGeneratorModuleForLocale */
  function ModuleForLocale(language: string): Bundle {
    BundleFor(ParseLanguage(language))
  }

  /** The languages that have a bundle of their own. */
  const OWN_BUNDLE_CODES: seq<string> := ["SW", "PL", "ES", "FR", "SV", "ZH", "DE", "KA"]

  /** A language selects a bundle other than EN exactly when its upper-cased
      code is one with its own bundle. */
  lemma ModuleForLocaleSpec(language: string)
    ensures ModuleForLocale(language) != EnBundle <==> Upper(language) in OWN_BUNDLE_CODES
  {
    var u := Upper(language);
    if u in OWN_BUNDLE_CODES {
      var i :| 0 <= i < |OWN_BUNDLE_CODES| && OWN_BUNDLE_CODES[i] == u;
      OwnBundle(i, language);
    } else {
      NoOwnBundle(language);
    }
  }

  lemma NoOwnBundle(language: string)
    requires Upper(language) !in OWN_BUNDLE_CODES
    ensures ModuleForLocale(language) == EnBundle
  {
    assert forall l: LanguageCode :: l !in {EN, IT} ==> Name(l) in OWN_BUNDLE_CODES;
  }

  /** The lookup ignores case. */
  lemma ModuleForLocaleIgnoresCase(language: string)
    ensures ModuleForLocale(language) == ModuleForLocale(Upper(language))
  {
    UpperIdempotent(language);
  }

  lemma UpperIdempotent(s: string)
    ensures Upper(Upper(s)) == Upper(s)
  {
  }

  const OWN_BUNDLES: seq<Bundle> := [SwBundle, PlBundle, EsBundle, FrBundle, SvBundle, ZhBundle, DeBundle, KaBundle]

  /** Each of those codes selects its own bundle, whatever its case. */
  lemma OwnBundle(i: nat, language: string)
    requires i < |OWN_BUNDLE_CODES| && Upper(language) == OWN_BUNDLE_CODES[i]
    ensures ModuleForLocale(language) == OWN_BUNDLES[i]
  {
    var l := [SW, PL, ES, FR, SV, ZH, DE, KA][i];
    assert Name(l) == Upper(language);
    FromNameOfName(l);
  }

  /** The locale providers a module binds, by class name. */
  datatype Bindings = Bindings(nationalIdentificationNumber: string, nationalIdentityCardNumber: string,
                               vatIdentificationNumber: string, address: string, passportNumber: string)

  /** The binding tables of the modules in this model; EnGeneratorModule,
      DeGeneatorModule and KaGenatorModule are not part of this model. */
  function BindingsOf(b: Bundle): Option<Bindings> {
    match b
    case ZhBundle => Some(Bindings("NoNationalIdentificationNumberFactory", "ZhNationalIdentityCardNumberProvider",
                                   "ZhVATIdentificationNumberProvider", "ZhAddressProvider", "ZhPassportNumberProvider"))
    case EsBundle => Some(Bindings("NoNationalIdentificationNumberFactory", "EsNationalIdentityCardNumberProvider",
                                   "EsVATIdentificationNumberProvider", "EsAddressProvider", "EsPassportNumberProvider"))
    case FrBundle => Some(Bindings("NoNationalIdentificationNumberFactory", "FrNationalIdentityCardNumberProvider",
                                   "FrVATIdentificationNumberProvider", "FrAddressProvider", "FrPassportNumberProvider"))
    case PlBundle => Some(Bindings("PlNationalIdentificationNumberFactory", "PlNationalIdentityCardNumberProvider",
                                   "PlVATIdentificationNumberProvider", "PlAddressProvider", "PlPassportNumberProvider"))
    case SvBundle => Some(Bindings("SvNationalIdentificationNumberFactory", "SvNationalIdentityCardNumberProvider",
                                   "SvVATIdentificationNumberProvider", "SvAddressProvider", "SvPassportNumberProvider"))
    case SwBundle => Some(Bindings("SwNationalIdentificationNumberFactory", "EnNationalIdentityCardNumberProvider",
                                   "EnVATIdentificationNumberProvider", "EnAddressProvider", "EnPassportNumberProvider"))
    case _ => None
  }

  /** The two resource files the default catalog reads, in order. */
  function DefaultDataFiles(filePrefix: string, language: string): (files: seq<string>)
    ensures |files| == 2
  {
    [filePrefix + ".yml", filePrefix + "_" + language + ".yml"]
  }

  /** What build hands to createGenerator. `seed` None is an unseeded
      generator. */
  datatype Plan = Plan(bundle: Bundle, dataMaster: DataMaster, filesRead: seq<string>, seed: Option<int>, language: string)

  /** Bootstrap.Builder. */
  class Builder {
    var language: string
    var filePrefix: string
    var seed: Option<int>
    var dataMaster: Option<DataMaster>

    /** builder(): English, prefix "seed", an unseeded generator, no catalog. */
    constructor()
      ensures language == ENGLISH && filePrefix == DATA_FILE_PREFIX && seed == None && dataMaster == None
    {
      language := ENGLISH;
      filePrefix := DATA_FILE_PREFIX;
      seed := None;
      dataMaster := None;
    }

    method WithLocale(language: string) returns (r: Builder)
      modifies this
      ensures r == this && this.language == language
      ensures filePrefix == old(filePrefix) && seed == old(seed) && dataMaster == old(dataMaster)
    {
      this.language := language;
      r := this;
    }

    method WithFilePrefix(filePrefix: string) returns (r: Builder)
      modifies this
      ensures r == this && this.filePrefix == filePrefix
      ensures language == old(language) && seed == old(seed) && dataMaster == old(dataMaster)
    {
      this.filePrefix := filePrefix;
      r := this;
    }

    /** withRandomSeed: a new seeded generator replaces the previous one. */
    method WithRandomSeed(randomSeed: int) returns (r: Builder)
      modifies this
      ensures r == this && seed == Some(randomSeed)
      ensures language == old(language) && filePrefix == old(filePrefix) && dataMaster == old(dataMaster)
    {
      seed := Some(randomSeed);
      r := this;
    }

    /** withDataMasterProvider: the catalog the provider gives. */
    method WithDataMaster(supplied: DataMaster) returns (r: Builder)
      modifies this
      ensures r == this && dataMaster == Some(supplied)
      ensures language == old(language) && filePrefix == old(filePrefix) && seed == old(seed)
    {
      dataMaster := Some(supplied);
      r := this;
    }

    /** build: without a supplied catalog, the fresh default one
        (`defaultDataMaster`) is stored in the builder and reads the two
        resource files; then the locale picks the module. */
    method Build(defaultDataMaster: DataMaster) returns (p: Plan)
      modifies this
      ensures old(dataMaster).Some? ==>
                dataMaster == old(dataMaster) && p.dataMaster == old(dataMaster).value && p.filesRead == []
      ensures old(dataMaster).None? ==>
                dataMaster == Some(defaultDataMaster) && p.dataMaster == defaultDataMaster
                && p.filesRead == DefaultDataFiles(filePrefix, language)
      ensures p.bundle == ModuleForLocale(language) && p.seed == seed && p.language == language
      ensures language == old(language) && filePrefix == old(filePrefix) && seed == old(seed)
    {
      var files: seq<string> := [];
      if dataMaster.None? {
        dataMaster := Some(defaultDataMaster);
        files := DefaultDataFiles(filePrefix, language);
      }
      p := Plan(ModuleForLocale(language), dataMaster.value, files, seed, language);
    }
  }
}
