/**
 * The object-level permission decision applied to exam sheets, tasks and
 * solutions: who may do what to an existing object, given only whether the
 * caller created it and the name of the view action.
 */
module Permissions {
  import opened Basics

  /** The only actions an owner may perform beyond reading. */
  const OwnerActions: set<string> := {"partial_update", "perform_destroy"}
  /** The actions open to every caller. */
  const ReadActions: set<string> := {"retrieve", "list"}

  /** The decision as the permission class writes it. */
  function HasObjectPermission(creator: UserId, user: UserId, action: string): (granted: bool)
    ensures granted ==> action in OwnerActions + ReadActions
    ensures action in ReadActions ==> granted
    ensures creator != user ==> (granted <==> action in ReadActions)
  {
    if creator == user && (action == "partial_update" || action == "perform_destroy") then true
    else if action == "retrieve" || action == "list" then true
    else false
  }

  /** The owner may patch the object and perform_destroy it. */
  lemma OwnerMayPatch(u: UserId)
    ensures HasObjectPermission(u, u, "partial_update")
    ensures HasObjectPermission(u, u, "perform_destroy")
  {
  }

  /** Reading is granted to everyone, owner or not. */
  lemma AnyoneMayRead(creator: UserId, user: UserId)
    ensures HasObjectPermission(creator, user, "retrieve")
    ensures HasObjectPermission(creator, user, "list")
  {
  }

  /** A non-owner is denied everything but reading, patch and delete included. */
  lemma NonOwnerOnlyReads(creator: UserId, user: UserId, action: string)
    requires creator != user
    ensures HasObjectPermission(creator, user, action) <==> action == "retrieve" || action == "list"
  {
  }

  /**
   * The decision is closed-world: outside the four named actions nothing is
   * granted, even to the owner; a full update (PUT) and a delete are refused.
   */
  lemma ClosedWorld(creator: UserId, user: UserId, action: string)
    requires action !in {"partial_update", "perform_destroy", "retrieve", "list"}
    ensures !HasObjectPermission(creator, user, action)
  {
  }

  /** Only the fact of ownership matters, not who the users are. */
  lemma DependsOnlyOnOwnership(c1: UserId, u1: UserId, c2: UserId, u2: UserId, action: string)
    requires (c1 == u1) == (c2 == u2)
    ensures HasObjectPermission(c1, u1, action) == HasObjectPermission(c2, u2, action)
  {
  }

  /** Whatever a non-owner is granted, the owner is granted too. */
  lemma OwnerAtLeastNonOwner(creator: UserId, user: UserId, action: string)
    requires HasObjectPermission(creator, user, action)
    ensures HasObjectPermission(creator, creator, action)
  {
  }

  // ---------------------------------------------------------------------------
  // The owner-delete action name
  // ---------------------------------------------------------------------------

  /**
   * "perform_destroy" is the name of a view hook, never the name of an
   * action: a DELETE request runs the action "destroy". So, as written, an
   * owner can never delete their own object.
   */
  lemma OwnerCannotDelete(u: UserId)
    ensures !HasObjectPermission(u, u, "destroy")
    ensures HasObjectPermission(u, u, "partial_update")
  {
  }

  /** The decision with the delete action under its real name. */
  function IntendedObjectPermission(creator: UserId, user: UserId, action: string): (granted: bool)
    ensures granted ==> action in {"partial_update", "destroy", "retrieve", "list"}
    ensures action in ReadActions ==> granted
    ensures creator != user ==> (granted <==> action in ReadActions)
  {
    if creator == user && (action == "partial_update" || action == "destroy") then true
    else action == "retrieve" || action == "list"
  }

  /** With the action name corrected, the owner may delete and nobody else may. */
  lemma IntendedOwnerMayDelete(creator: UserId, user: UserId)
    ensures IntendedObjectPermission(creator, user, "destroy") <==> creator == user
    ensures IntendedObjectPermission(creator, user, "partial_update") <==> creator == user
  {
  }
}
