/** `SubmissionMapper`: building the create-submission request and its enum helpers. */
module SubmissionMapper {
  import opened Wrappers
  import opened Dtos
  import opened Enums

  /** The problem fields the mapper adds to the request. */
  datatype Addons = Addons(title: string, difficulty: int)

  /** `toCreateSubmissionDTO`: request fields copied as they are, a falsy country dropped. */
  function ToCreateSubmissionDTO(data: SubmitCodeExecRequest, addons: Addons): (r: CreateSubmissionRequest)
    ensures r.problemId == data.problemId && r.userCode == data.userCode
    ensures r.userId == data.userId && r.language == data.language
    ensures r.title == addons.title && r.difficulty == addons.difficulty
    ensures r.country.Some? <==> data.country != ""
    ensures r.country.Some? ==> r.country.value == data.country
  {
    CreateSubmissionRequest(
      problemId := data.problemId,
      userCode := data.userCode,
      userId := data.userId,
      country := if data.country != "" then Some(data.country) else None,
      language := data.language,
      title := addons.title,
      difficulty := addons.difficulty)
  }

  /** `_mapGrpcDifficultyEnum`: 1, 2, 3 are easy, medium, hard; anything else throws. */
  function MapGrpcDifficultyEnum(code: int): (r: Result<Difficulty, string>)
    ensures r.Success? <==> code in {1, 2, 3}
    ensures code == 1 ==> r == Success(Easy)
    ensures code == 2 ==> r == Success(Medium)
    ensures code == 3 ==> r == Success(Hard)
    ensures r.Failure? ==> r.error == "Invalid difficulty value"
  {
    if code == 1 then Success(Easy)
    else if code == 2 then Success(Medium)
    else if code == 3 then Success(Hard)
    else Failure("Invalid difficulty value")
  }

  /** `_mapGrpcLanguageEnum`: only JavaScript (1) and Python (2); Go (3) throws here. */
  function MapGrpcLanguageEnum(code: int): (r: Result<Language, string>)
    ensures r.Success? <==> code in {1, 2}
    ensures r.Success? ==> r == Enums.MapGrpcLanguageEnum(code)
    ensures r.Failure? ==> r.error == "Invalid choosen language"
  {
    if code == 1 then Success(JavaScript)
    else if code == 2 then Success(Python)
    else Failure("Invalid choosen language")
  }

  /** The two language mappers of the service disagree exactly on Go. */
  lemma LanguageMappersDisagreeOnGo(code: int)
    ensures (MapGrpcLanguageEnum(code).Success? == Enums.MapGrpcLanguageEnum(code).Success?) <==> code != 3
  {
  }

  /** The difficulty mapper is injective on the codes it accepts. */
  lemma MapGrpcDifficultyEnumInjective(a: int, b: int)
    requires MapGrpcDifficultyEnum(a).Success? && MapGrpcDifficultyEnum(a) == MapGrpcDifficultyEnum(b)
    ensures a == b
  {
  }
}
