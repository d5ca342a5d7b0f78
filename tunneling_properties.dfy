/** Properties of the tunnelling channel's post() decision. */
module TunnelingProperties {
  import opened Wrappers
  import opened Tunneling

  predicate TunnelReplyTo(r: TunnelRecipient) {
    r.rtype == agent && r.channel == ChannelType
  }

  /** post() raises for anything but a BaseMessage; drops exactly the dialog messages whose
      reply-to is set but not an agent address on the tunnel channel; gives a dialog
      message without reply-to the channel's own agent address on the tunnel; and forwards
      everything else unchanged. */
  lemma PostRules(agentId: string, route: string, isBaseMessage: bool, isDialog: bool,
                  replyTo: Option<TunnelRecipient>)
    ensures var (out, rt) := PostDecision(agentId, route, isBaseMessage, isDialog, replyTo);
      && (out == NotAMessage <==> !isBaseMessage)
      && (out == Dropped <==> isBaseMessage && isDialog && replyTo.Some? && !TunnelReplyTo(replyTo.value))
      && (out == Forwarded && isDialog && replyTo.None? ==>
            rt == Some(TunnelRecipient(agentId, route, agent, ChannelType)))
      && (!(isDialog && replyTo.None? && isBaseMessage) ==> rt == replyTo)
  {
  }

  /** A forwarded dialog message always carries a tunnel reply-to address, so posting it
      again forwards it unchanged. */
  lemma ForwardedDialogIsAnswerable(agentId: string, route: string, isDialog: bool,
                                    replyTo: Option<TunnelRecipient>)
    ensures var (out, rt) := PostDecision(agentId, route, true, isDialog, replyTo);
      out == Forwarded && isDialog ==>
        && rt.Some? && TunnelReplyTo(rt.value)
        && PostDecision(agentId, route, true, isDialog, rt) == (Forwarded, rt)
  {
  }
}
