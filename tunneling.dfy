/**
  The tunnelling channel, src/feat/agencies/tunneling.py: an agent's channel that posts
  messages through a backend. Dialog messages must be answerable through the tunnel:
  one without a reply-to address gets the channel's own, one whose reply-to is not an
  agent address on the tunnel channel is dropped.
*/
module Tunneling {
  import opened Wrappers

  datatype RecipientType = agent | broadcast

  datatype TunnelRecipient = TunnelRecipient(key: string, route: string, rtype: RecipientType, channel: string)

  const ChannelType := "tunnel"

  /** A message handed to post(): whether it is a BaseMessage at all, whether it is a dialog
      message, and its reply-to address, which post() may set. */
  class TunnelMessage {
    const isBaseMessage: bool
    const isDialog: bool
    var replyTo: Option<TunnelRecipient>

    constructor (isBaseMessage: bool, isDialog: bool, replyTo: Option<TunnelRecipient>)
      ensures this.isBaseMessage == isBaseMessage && this.isDialog == isDialog && this.replyTo == replyTo
    {
      this.isBaseMessage := isBaseMessage;
      this.isDialog := isDialog;
      this.replyTo := replyTo;
    }
  }

  datatype PostOutcome = NotAMessage | Dropped | Forwarded

  /** The decision of post(): the outcome and the message's reply-to address afterwards. */
  function PostDecision(agentId: string, route: string, isBaseMessage: bool, isDialog: bool,
                        replyTo: Option<TunnelRecipient>): (PostOutcome, Option<TunnelRecipient>)
  {
    if !isBaseMessage then (NotAMessage, replyTo)
    else if !isDialog then (Forwarded, replyTo)
    else if replyTo.None? then (Forwarded, Some(TunnelRecipient(agentId, route, agent, ChannelType)))
    else if replyTo.value.rtype != agent || replyTo.value.channel != ChannelType then (Dropped, replyTo)
    else (Forwarded, replyTo)
  }

  /** One post to the backend: the recipients and the message with its reply-to then. */
  datatype Posted = Posted(recipients: seq<TunnelRecipient>, message: TunnelMessage, replyTo: Option<TunnelRecipient>)

  class Channel {
    /** The agent's id, which is also the channel's id. */
    const agentId: string
    /** The backend's route and channel type. */
    const route: string
    const backendChannelType: string
    /** What has been posted to the backend. */
    var posted: seq<Posted>

    constructor (agentId: string, route: string, backendChannelType: string)
      ensures this.agentId == agentId && this.route == route && this.backendChannelType == backendChannelType
      ensures posted == []
    {
      this.agentId := agentId;
      this.route := route;
      this.backendChannelType := backendChannelType;
      posted := [];
    }

    method Post(recipients: seq<TunnelRecipient>, message: TunnelMessage) returns (r: PostOutcome)
      modifies this, message
      ensures var d := PostDecision(agentId, route, message.isBaseMessage, message.isDialog, old(message.replyTo));
        r == d.0 && message.replyTo == d.1
      ensures posted == if r == Forwarded then old(posted) + [Posted(recipients, message, message.replyTo)]
                        else old(posted)
    {
      if !message.isBaseMessage {
        return NotAMessage;
      }
      if message.isDialog {
        var replyTo := message.replyTo;
        if replyTo.None? {
          message.replyTo := Some(TunnelRecipient(agentId, route, agent, ChannelType));
        } else if replyTo.value.rtype != agent || replyTo.value.channel != ChannelType {
          return Dropped;
        }
      }
      posted := posted + [Posted(recipients, message, message.replyTo)];
      return Forwarded;
    }

    /** bind(key, route): the tunnel has no bindings to make. */
    function Bind(key: string, route: Option<string>): (b: Option<string>)
      ensures b.None?
    {
      None
    }

    /** get_bindings(route): the tunnel has no bindings. */
    function GetBindings(route: Option<string>): (bs: seq<string>)
      ensures bs == []
    {
      []
    }

    /** get_recipient(): the channel's own address, with the backend's channel type. */
    function GetRecipient(): (rcp: TunnelRecipient)
      ensures rcp.key == agentId && rcp.route == route && rcp.channel == backendChannelType
      ensures rcp.rtype == agent
    {
      TunnelRecipient(agentId, route, agent, backendChannelType)
    }
  }
}
