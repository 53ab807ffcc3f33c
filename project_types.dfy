/** The data shapes of src/types/project.ts. */
module ProjectTypes {
  import opened Wrappers

  /** Hours and cost are JavaScript numbers; they are modelled as unbounded integers. */
  datatype Estimation = Estimation(hours: int, cost: int, details: string)

  /** One feature of a breakdown (the source calls this shape `UserStory`). */
  datatype UserStory = UserStory(
    name: string,
    description: string,
    userStories: seq<string>,
    estimation: Option<Estimation>)

  datatype Breakdown = Breakdown(features: seq<UserStory>, technicalComponents: seq<string>)
}
