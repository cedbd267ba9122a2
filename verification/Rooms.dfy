/** The rooms of the drawn world and the file each one stands for. */
module Rooms {
  import opened Wrappers

  datatype FileRoom = FileRoom(
    id: string,
    ownerId: Option<string>,
    requiresPermission: bool,
    deskIds: seq<string>,
    resourceUri: Option<string>)

  const FILE_ROOMS: seq<FileRoom> := [
    FileRoom("auth-module", Some("user-a"), true, ["desk-auth-module-1", "desk-auth-module-2"],
             Some("res://user-a/notes.md")),
    FileRoom("billing", Some("user-a"), true, ["desk-billing-1", "desk-billing-2"],
             Some("res://user-a/secret-recipe.txt")),
    FileRoom("database", Some("user-b"), true, [], Some("res://user-b/notes.md")),
    FileRoom("deploy-config", Some("user-b"), true, ["desk-deploy-config-1", "desk-deploy-config-2"],
             Some("res://user-b/tax-return.txt")),
    FileRoom("analytics", Some("user-a"), true, ["desk-analytics-1", "desk-analytics-2"],
             Some("res://user-a/analytics-summary.md")),
    FileRoom("living-room", None, false, [], None)
  ]

  const JAIL_ROOM_ID := "database"
}
