/** The room-creation dialog: a room name that keeps at least three characters
    once trimmed, a visibility toggle, and one submission at a time. Whether the
    creation callback succeeds or throws arrives as a parameter. */
module CreateRoomModal {
  import opened Types
  import opened Strings

  const MinRoomNameLength: nat := 3
  const RoomNameMaxLength: nat := 24

  /** What the dialog hands to the creation callback. */
  datatype Payload = Payload(roomName: string, isOpen: bool)

  /** `canSubmit`. */
  predicate CanSubmit(roomName: string, isSubmitting: bool) {
    |Trim(roomName)| >= MinRoomNameLength && !isSubmitting
  }

  /** A name of white space only is never submitted. */
  lemma {:induction false} BlankNameCannotSubmit(roomName: string, isSubmitting: bool)
    requires forall i :: 0 <= i < |roomName| ==> IsSpace(roomName[i])
    ensures !CanSubmit(roomName, isSubmitting)
  {
    TrimBlank(roomName);
  }

  /** A name the dialog accepts already has no white space at its ends after
      trimming, and it never exceeds what was typed. */
  lemma {:induction false} SubmittedNameIsTrimmed(roomName: string)
    requires CanSubmit(roomName, false)
    ensures Trim(Trim(roomName)) == Trim(roomName)
    ensures MinRoomNameLength <= |Trim(roomName)| <= |roomName|
  {
    TrimIdempotent(roomName);
  }

  class Form {
    var roomName: string
    var isOpen: bool
    var isSubmitting: bool

    /** The input holds at most 24 characters. */
    ghost predicate Valid()
      reads this
    {
      |roomName| <= RoomNameMaxLength
    }

    constructor ()
      ensures Valid() && roomName == "" && isOpen && !isSubmitting
    {
      roomName := "";
      isOpen := true;
      isSubmitting := false;
    }

    /** Typing in the name input, which accepts at most 24 characters. */
    method SetRoomName(n: string)
      requires Valid() && |n| <= RoomNameMaxLength
      modifies this`roomName
      ensures Valid() && roomName == n
    {
      roomName := n;
    }

    /** The visibility button flips the flag and nothing else. */
    method Toggle()
      requires Valid()
      modifies this`isOpen
      ensures Valid() && isOpen == !old(isOpen)
    {
      isOpen := !isOpen;
    }

    /** The first half of `handleSubmit`: without `canSubmit` nothing happens;
        otherwise the form is marked as submitting and the payload is the trimmed
        name with the current visibility. */
    method BeginSubmit() returns (payload: Option<Payload>)
      requires Valid()
      modifies this`isSubmitting
      ensures Valid()
      ensures !CanSubmit(old(roomName), old(isSubmitting)) ==> payload == None && isSubmitting == old(isSubmitting)
      ensures CanSubmit(old(roomName), old(isSubmitting)) ==>
                payload == Some(Payload(Trim(roomName), isOpen)) && isSubmitting
    {
      if !(|Trim(roomName)| >= MinRoomNameLength && !isSubmitting) {
        return None;
      }
      isSubmitting := true;
      payload := Some(Payload(Trim(roomName), isOpen));
    }

    /** The second half: once the callback has settled, success closes the dialog
        and clears the form, a thrown error keeps name and visibility; either way
        the form is no longer submitting. */
    method FinishSubmit(succeeded: bool) returns (closed: bool)
      requires Valid() && isSubmitting
      modifies this`roomName, this`isOpen, this`isSubmitting
      ensures Valid() && !isSubmitting
      ensures closed == succeeded
      ensures succeeded ==> roomName == "" && isOpen
      ensures !succeeded ==> roomName == old(roomName) && isOpen == old(isOpen)
    {
      closed := false;
      if succeeded {
        closed := true;
        roomName := "";
        isOpen := true;
      }
      isSubmitting := false;
    }

    /** `handleSubmit` as a whole: at most one payload, and the form ends up not
        submitting whether the callback succeeds or throws. */
    method HandleSubmit(succeeded: bool) returns (payload: Option<Payload>, closed: bool)
      requires Valid()
      modifies this
      ensures Valid()
      ensures !CanSubmit(old(roomName), old(isSubmitting)) ==>
                payload == None && !closed && roomName == old(roomName) && isOpen == old(isOpen)
                && isSubmitting == old(isSubmitting)
      ensures CanSubmit(old(roomName), old(isSubmitting)) ==>
                && payload == Some(Payload(Trim(old(roomName)), old(isOpen)))
                && !isSubmitting && closed == succeeded
                && (succeeded ==> roomName == "" && isOpen)
                && (!succeeded ==> roomName == old(roomName) && isOpen == old(isOpen))
    {
      closed := false;
      payload := BeginSubmit();
      if payload.Some? {
        closed := FinishSubmit(succeeded);
      }
    }
  }
}
