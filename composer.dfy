/** The message composer's state and its two state-changing handlers: the
    selection toggle of the bulk list and `handleSendMessage`. */
module Composer {
  import opened Records
  import opened Text
  import opened Selector

  datatype MessageType = Manual | Bulk

  /** The payload `handleSendMessage` hands to the transport (the component
      only logs it). */
  datatype OutgoingMessage = OutgoingMessage(type_: MessageType, recipients: seq<string>, content: string)

  /** What one call of `handleSendMessage(type)` sends: nothing when the
      trimmed body is empty; otherwise the manual recipient alone, or the
      whole selection, with the body as typed (untrimmed). Recipients are not
      checked here: only the buttons' `disabled` guards look at them. */
  function Dispatch(type_: MessageType, messageContent: string, manualRecipient: string,
                    selectedTravelers: seq<string>): (r: Option<OutgoingMessage>)
    ensures r.Some? ==> r.value.type_ == type_ && r.value.content == messageContent
    ensures r.Some? && type_ == Manual ==> r.value.recipients == [manualRecipient]
    ensures r.Some? && type_ == Bulk ==> r.value.recipients == selectedTravelers
  {
    if Trim(messageContent) == "" then None
    else Some(OutgoingMessage(type_, if type_ == Manual then [manualRecipient] else selectedTravelers, messageContent))
  }

  /** Nothing is sent exactly when the body holds whitespace only. */
  lemma DispatchNoneIffBlank(type_: MessageType, messageContent: string, manualRecipient: string,
                             selectedTravelers: seq<string>)
    ensures Dispatch(type_, messageContent, manualRecipient, selectedTravelers).None? <==> IsBlank(messageContent)
  {
    TrimEmptyIffBlank(messageContent);
  }

  /** A message sent from an enabled manual button goes to one chosen,
      non-empty recipient. */
  lemma ManualButtonSendsToRecipient(messageContent: string, manualRecipient: string, sel: seq<string>)
    requires ManualSendEnabled(messageContent, manualRecipient)
    ensures Dispatch(Manual, messageContent, manualRecipient, sel) == Some(OutgoingMessage(Manual, [manualRecipient], messageContent))
    ensures manualRecipient != ""
  {
  }

  /** A message sent from an enabled bulk button goes to at least one
      traveler, none twice when the selection was built by toggles. */
  lemma BulkButtonSendsToSelection(messageContent: string, manualRecipient: string, sel: seq<string>)
    requires BulkSendEnabled(messageContent, sel) && NoDuplicates(sel)
    ensures Dispatch(Bulk, messageContent, manualRecipient, sel).Some?
    ensures var m := Dispatch(Bulk, messageContent, manualRecipient, sel).value;
            |m.recipients| > 0 && NoDuplicates(m.recipients)
  {
  }

  /** The handler itself does not look at the recipient: called directly in
      manual mode with no traveler chosen it sends to the empty id. */
  lemma HandlerSendsToEmptyRecipient()
    ensures Dispatch(Manual, "hello", "", []) == Some(OutgoingMessage(Manual, [""], "hello"))
  {
  }

  /** The state of one `AIMessageControl` instance (its `useState` cells that
      the core reads and writes). */
  class MessageComposer {
    var messageType: MessageType
    var selectedTravelers: seq<string>
    var messageContent: string
    var searchTerm: string
    var filterDestination: string
    var manualRecipient: string

    /** The selection never holds an id twice. */
    ghost predicate Valid()
      reads this
    {
      NoDuplicates(selectedTravelers)
    }

    /** The initial `useState` values. */
    constructor ()
      ensures Valid()
      ensures messageType == Manual && selectedTravelers == [] && messageContent == ""
      ensures searchTerm == "" && filterDestination == "all" && manualRecipient == ""
    {
      messageType := Manual;
      selectedTravelers := [];
      messageContent := "";
      searchTerm := "";
      filterDestination := "all";
      manualRecipient := "";
    }

    /** The bulk list as shown under the current filters. */
    function FilteredTravelers(travelers: seq<Traveler>): (r: seq<Traveler>)
      reads this
      ensures IsSubsequence(r, travelers)
      ensures forall t :: t in r <==> t in travelers && Kept(t, searchTerm, filterDestination)
    {
      FilterTravelers(travelers, searchTerm, filterDestination)
    }

    method SetMessageType(t: MessageType)
      modifies this`messageType
      ensures messageType == t
    {
      messageType := t;
    }

    method SetMessageContent(s: string)
      modifies this`messageContent
      ensures messageContent == s
    {
      messageContent := s;
    }

    method SetSearchTerm(s: string)
      modifies this`searchTerm
      ensures searchTerm == s
    {
      searchTerm := s;
    }

    method SetFilterDestination(d: string)
      modifies this`filterDestination
      ensures filterDestination == d
    {
      filterDestination := d;
    }

    method SetManualRecipient(id: string)
      modifies this`manualRecipient
      ensures manualRecipient == id
    {
      manualRecipient := id;
    }

    /** A click on a traveler of the bulk list: deselect it when selected,
      otherwise append it to the selection. */
    method ToggleTraveler(id: string)
      requires Valid()
      modifies this`selectedTravelers
      ensures Valid()
      ensures selectedTravelers == Toggled(old(selectedTravelers), id)
      ensures id in selectedTravelers <==> id !in old(selectedTravelers)
    {
      ToggleKeepsNoDuplicates(selectedTravelers, id);
      selectedTravelers := Toggled(selectedTravelers, id);
    }

    /** `handleSendMessage(type)`: returns what was sent. A blank body
      changes nothing; otherwise body, selection and manual recipient are all
      cleared, whichever the mode. */
    method SendMessage(type_: MessageType) returns (sent: Option<OutgoingMessage>)
      requires Valid()
      modifies this
      ensures Valid()
      ensures sent == Dispatch(type_, old(messageContent), old(manualRecipient), old(selectedTravelers))
      ensures sent.None? ==> unchanged(this)
      ensures sent.Some? ==> messageContent == "" && selectedTravelers == [] && manualRecipient == ""
      ensures messageType == old(messageType) && searchTerm == old(searchTerm)
      ensures filterDestination == old(filterDestination)
    {
      sent := Dispatch(type_, messageContent, manualRecipient, selectedTravelers);
      if sent.None? {
        return;
      }
      messageContent, selectedTravelers, manualRecipient := "", [], "";
    }
  }
}
