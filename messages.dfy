/** One entry of a chat exchange, as the completion endpoint expects it: a role and its text. */
module Messages {

  datatype Role = System | User | Assistant

  datatype Turn = Turn(role: Role, content: string)

}
