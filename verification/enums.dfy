/** The service's enumerations and the mapping from the wire codes of the RPC layer (src/enums/Mapper.ts). */
module Enums {
  import opened Wrappers

  /** The languages the service runs, with the string values the source compares against. */
  datatype Language = JavaScript | Python | Go

  function LanguageName(l: Language): string {
    match l
    case JavaScript => "javascript"
    case Python => "python"
    case Go => "go"
  }

  datatype Difficulty = Easy | Medium | Hard

  /** `Mapper.mapGrpcLanguageEnum`: codes 1, 2, 3 name a language, every other code throws. */
  function MapGrpcLanguageEnum(code: int): (r: Result<Language, string>)
    ensures r.Success? <==> code in {1, 2, 3}
    ensures r.Failure? ==> r.error == "Invalid language"
  {
    if code == 1 then Success(JavaScript)
    else if code == 2 then Success(Python)
    else if code == 3 then Success(Go)
    else Failure("Invalid language")
  }

  /** The accepted codes name the three languages in order. */
  lemma MapGrpcLanguageEnumValues()
    ensures MapGrpcLanguageEnum(1) == Success(JavaScript)
    ensures MapGrpcLanguageEnum(2) == Success(Python)
    ensures MapGrpcLanguageEnum(3) == Success(Go)
    ensures MapGrpcLanguageEnum(0).Failure?
  {
  }

  /** Distinct accepted codes give distinct languages, and every language has a code. */
  lemma MapGrpcLanguageEnumBijective(a: int, b: int)
    requires MapGrpcLanguageEnum(a).Success? && MapGrpcLanguageEnum(b).Success?
    ensures MapGrpcLanguageEnum(a) == MapGrpcLanguageEnum(b) ==> a == b
    ensures forall l: Language :: exists c :: c in {1, 2, 3} && MapGrpcLanguageEnum(c) == Success(l)
  {
    forall l: Language ensures exists c :: c in {1, 2, 3} && MapGrpcLanguageEnum(c) == Success(l) {
      var c := match l case JavaScript => 1 case Python => 2 case Go => 3;
      assert MapGrpcLanguageEnum(c) == Success(l);
    }
  }

  /** Language names are distinct, so a name identifies its language. */
  lemma LanguageNameInjective(a: Language, b: Language)
    requires LanguageName(a) == LanguageName(b)
    ensures a == b
  {
  }
}
