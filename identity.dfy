/** The identity resolver `getUserId`: source e-mail address to destination user id. */
module Identity {
  import opened Wrappers
  import opened Configuration

  /** Index of the first entry at or after `from` whose e-mail is exactly `email` (`Array.prototype.find`). */
  function FindFrom(mapping: seq<UserMapping>, email: string, from: nat): (r: Option<nat>)
    requires from <= |mapping|
    decreases |mapping| - from
    ensures r.Some? ==> from <= r.value < |mapping| && mapping[r.value].email == email
    ensures r.Some? ==> forall j :: from <= j < r.value ==> mapping[j].email != email
    ensures r.None? ==> forall j :: from <= j < |mapping| ==> mapping[j].email != email
  {
    if from == |mapping| then None
    else if mapping[from].email == email then Some(from)
    else FindFrom(mapping, email, from + 1)
  }

  /** JavaScript's `!email`: the address is missing or the empty string. */
  predicate IsBlank(email: Option<string>)
  {
    email.None? || email.value == ""
  }

  /** `getUserId(email)`: the first exactly matching entry's id, else the default id. */
  function GetUserId(cfg: Config, email: Option<string>): (r: int)
    ensures r != cfg.defaultUserId ==>
      !IsBlank(email) && exists k :: 0 <= k < |cfg.usersMapping| && cfg.usersMapping[k] == UserMapping(email.value, r)
  {
    if IsBlank(email) then cfg.defaultUserId
    else match FindFrom(cfg.usersMapping, email.value, 0)
      case Some(k) =>
        assert cfg.usersMapping[k] == UserMapping(email.value, cfg.usersMapping[k].users_id);
        cfg.usersMapping[k].users_id
      case None => cfg.defaultUserId
  }

  /** A missing or empty address resolves to the default id. */
  lemma BlankEmailGetsDefault(cfg: Config, email: Option<string>)
    requires IsBlank(email)
    ensures GetUserId(cfg, email) == cfg.defaultUserId
  {
  }

  /** A non-empty address resolves to the id of the first entry with exactly that address. */
  lemma FirstMatchWins(cfg: Config, email: string, k: nat)
    requires email != ""
    requires k < |cfg.usersMapping| && cfg.usersMapping[k].email == email
    requires forall j :: 0 <= j < k ==> cfg.usersMapping[j].email != email
    ensures GetUserId(cfg, Some(email)) == cfg.usersMapping[k].users_id
  {
    assert FindFrom(cfg.usersMapping, email, 0) == Some(k);
  }

  /** An address no entry carries resolves to the default id. */
  lemma UnmappedEmailGetsDefault(cfg: Config, email: string)
    requires forall j :: 0 <= j < |cfg.usersMapping| ==> cfg.usersMapping[j].email != email
    ensures GetUserId(cfg, Some(email)) == cfg.defaultUserId
  {
  }
}
