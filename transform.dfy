/** The schema transformer `transformToNewGLPIFormat`. */
module Transform {
  import opened Wrappers
  import opened Configuration
  import opened Links
  import opened Glpi

  /**
   * The destination envelope of a ticket: the listed fields copied, the links
   * rewritten from the old base URL to the new one. A field the source ticket
   * lacks is `undefined` in the literal and so absent from the JSON sent.
   */
  function TransformToNewFormat(cfg: Config, t: Ticket): (p: TicketPayload)
    ensures forall k :: k in p.fields ==> k in PassThroughFields && k in t.attrs && p.fields[k] == t.attrs[k]
    ensures |p.links| == |t.links|
  {
    TicketPayload(
      t.id, t.status, t.users_id_recipient, t.users_id_lastupdater,
      map k | k in t.attrs && k in PassThroughFields :: t.attrs[k],
      RewriteLinks(t.links, cfg.oldBaseUrl, cfg.newBaseUrl))
  }

  /** Every listed field carries exactly the source ticket's value; no other field is sent. */
  lemma TransformCopiesFields(cfg: Config, t: Ticket)
    ensures var p := TransformToNewFormat(cfg, t);
      && p.id == t.id && p.status == t.status
      && p.users_id_recipient == t.users_id_recipient
      && p.users_id_lastupdater == t.users_id_lastupdater
      && (forall k :: k in p.fields ==> k in PassThroughFields)
      && (forall k :: k in PassThroughFields ==>
            (k in p.fields <==> k in t.attrs) && (k in t.attrs ==> p.fields[k] == t.attrs[k]))
  {
  }

  /** The links are rewritten one for one, in order, touching only each `href`. */
  lemma TransformRewritesLinks(cfg: Config, t: Ticket)
    ensures var p := TransformToNewFormat(cfg, t);
      && |p.links| == |t.links|
      && forall i :: 0 <= i < |t.links| ==>
           p.links[i].rel == t.links[i].rel
           && p.links[i].href == Replace(t.links[i].href, cfg.oldBaseUrl, cfg.newBaseUrl)
  {
  }

  /**
   * The transient `_users_id_requester` is not among the projected fields, so
   * the value the orchestrator sets there never reaches the destination.
   */
  lemma TransformIgnoresRequester(cfg: Config, t: Ticket, requester: Option<int>)
    ensures TransformToNewFormat(cfg, t.(requester := requester)) == TransformToNewFormat(cfg, t)
  {
  }

  /** The link example: with bases without `$`, a source-rooted href is re-rooted at the destination. */
  lemma SourceRootedLinkIsRerooted(cfg: Config, t: Ticket, i: nat, suffix: string)
    requires '$' !in cfg.newBaseUrl
    requires i < |t.links| && t.links[i].href == cfg.oldBaseUrl + suffix
    ensures TransformToNewFormat(cfg, t).links[i].href == cfg.newBaseUrl + suffix
  {
    ReplacePrefix(cfg.oldBaseUrl, suffix, cfg.newBaseUrl);
  }

  /** A ticket with one link rooted at the old base URL is written with that link rooted at the new one. */
  lemma SingleLinkIsRerooted(cfg: Config, t: Ticket, rel: string, suffix: string)
    requires '$' !in cfg.newBaseUrl
    requires t.links == [Link(rel, cfg.oldBaseUrl + suffix)]
    ensures TransformToNewFormat(cfg, t).links == [Link(rel, cfg.newBaseUrl + suffix)]
  {
    SourceRootedLinkIsRerooted(cfg, t, 0, suffix);
  }

  /** The worked example: `https://old.example/Ticket/10` becomes `https://new.example/Ticket/10`. */
  lemma ExampleLinkIsRerooted(cfg: Config, t: Ticket)
    requires cfg.oldBaseUrl == "https://old.example" && cfg.newBaseUrl == "https://new.example"
    requires t.links == [Link("Ticket", "https://old.example/Ticket/10")]
    ensures TransformToNewFormat(cfg, t).links == [Link("Ticket", "https://new.example/Ticket/10")]
  {
    ExampleUrlsSplit();
    SingleLinkIsRerooted(cfg, t, "Ticket", "/Ticket/10");
  }

  /** The example's URLs are the two base URLs followed by the same path. */
  lemma ExampleUrlsSplit()
    ensures "https://old.example/Ticket/10" == "https://old.example" + "/Ticket/10"
    ensures "https://new.example/Ticket/10" == "https://new.example" + "/Ticket/10"
    ensures '$' !in "https://new.example"
  {
  }
}
