/** The language codes the generator knows (LanguageCode). LanguageCode.java
    is not part of this model; its constants are the ones the generator's
    code refers to. */
module Languages {
  import opened Wrappers

  datatype LanguageCode = DE | EN | ES | FR | IT | KA | PL | SV | SW | ZH

  /** The enum constant's name. */
  function Name(l: LanguageCode): string {
    match l
    case DE => "DE" case EN => "EN" case ES => "ES" case FR => "FR" case IT => "IT"
    case KA => "KA" case PL => "PL" case SV => "SV" case SW => "SW" case ZH => "ZH"
  }

  /** Enum lookup by exact, case-sensitive constant name (valueOf and
      EnumUtils.getEnum); None where valueOf throws and getEnum answers null. */
  function FromName(s: string): (r: Option<LanguageCode>)
    ensures r.Some? ==> Name(r.value) == s
    ensures r.None? ==> forall l: LanguageCode :: Name(l) != s
  {
    if |s| != 2 then None
    else
      var candidate: Option<LanguageCode> := match s[0]
        case 'D' => Some(DE) case 'E' => if s[1] == 'N' then Some(EN) else Some(ES)
        case 'F' => Some(FR) case 'I' => Some(IT) case 'K' => Some(KA)
        case 'P' => Some(PL) case 'S' => if s[1] == 'V' then Some(SV) else Some(SW)
        case 'Z' => Some(ZH) case _ => None;
      if candidate.Some? && Name(candidate.value) == s then candidate else None
  }

  /** Looking a constant up by its own name finds it. */
  lemma FromNameOfName(l: LanguageCode)
    ensures FromName(Name(l)) == Some(l)
  {
  }
}
