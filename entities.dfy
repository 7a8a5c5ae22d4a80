/** The backend records the dashboard components read and send. Each
    component file declares its own view of these records; the model keeps
    one record per entity holding the fields any component reads. */
module Entities {
  import opened Common

  /** A team registration (`registrationformhacker`). `verified` is "yes" or
      "no" in practice; the model allows any string, as the code tests only
      for "yes". `createdAt` is the backend's timestamp text. */
  datatype Registration = Registration(
    id: string,
    teamname: string,
    email: string,
    contactno: string,
    payment: Option<string>,
    verified: string,
    createdAt: string)

  /** A team member (`teamsmemberhacker`). The backend embeds a copy of the
      member's registration; the registration page reads it under the name
      `Registrationformhacker` and the team-members page under
      `Registrationformhackerid`, so both fields are kept. */
  datatype TeamMember = TeamMember(
    id: string,
    name: string,
    github: string,
    email: string,
    contactno: string,
    image: Option<string>,
    registrationformhacker: Option<Registration>,
    registrationformhackerid: Option<Registration>)

  /** A sponsor (`sponsers`); `sponsorType` is the record's `type` field. */
  datatype Sponsor = Sponsor(id: string, title: string, image: Option<string>, sponsorType: string)

  /** A supporting partner (`supportingpartners`). */
  datatype Partner = Partner(id: string, title: string, image: Option<string>)

  /** The hackathon description (`abouthackerthon`). */
  datatype HackathonInfo = HackathonInfo(id: Option<string>, description: string)
}
