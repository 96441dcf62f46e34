/** The records exchanged between the extension and the generator. */
module Interface {

  import opened Wrappers

  /** The user's settings; the three optional fields may be absent. */
  datatype UserData = UserData(
    name: string,
    years: int,
    currentRole: string,
    topSkills: string,
    keyAchievement: Option<string>,
    portfolioUrl: Option<string>,
    location: Option<string>)

  /** The job posting the message is about. */
  datatype ProfileData = ProfileData(
    fullName: string,
    role: string,
    company: string,
    skills: seq<string>,
    url: string)

  datatype GenerateRequest = GenerateRequest(user: UserData, profile: ProfileData)
}
