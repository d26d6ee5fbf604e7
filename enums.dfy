/** The two enumerations of the client: grid styles and the namespaces of game identifiers. */
module Enums {

  /** The visual style of a grid image. */
  datatype Style = Alternate | NoLogo | Blurred | Material

  /** The namespace an identifier of a game belongs to. */
  datatype IdType = SteamAppId | OriginId | EgsId | UplayId | GogId | GameId
}
