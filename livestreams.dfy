/** The Livestream page: the creation form and livestream creation. */
module Livestreams {
  import opened Records

  /** The `newLivestream` form state. */
  datatype LivestreamForm = LivestreamForm(
    title: string,
    description: string,
    startTime: string,
    endTime: string)

  function EmptyForm(): LivestreamForm
  {
    LivestreamForm("", "", "", "")
  }

  /** The guard of `handleCreateLivestream`: all four fields are non-empty strings.
      Nothing is trimmed and the times are not compared. */
  predicate CanCreate(form: LivestreamForm)
  {
    form.title != "" && form.description != "" && form.startTime != "" && form.endTime != ""
  }

  /** The form fields a livestream carries. */
  function FormOf(l: Livestream): LivestreamForm
  {
    LivestreamForm(l.title, l.description, l.startTime, l.endTime)
  }

  /** The record `handleCreateLivestream` builds; the id comes from the clock and is
      passed in. It belongs to organization 1, has no viewers and is upcoming. */
  function NewLivestream(form: LivestreamForm, id: int): (l: Livestream)
    ensures FormOf(l) == form
    ensures l.id == id && l.organizationId == 1 && l.viewers == 0 && l.status == Upcoming
  {
    Livestream(id, form.title, form.description, 1, form.startTime, form.endTime, 0, Upcoming)
  }

  /** White-space fields and an end before the start are both accepted. */
  lemma GuardDoesNotTrimOrOrder()
    ensures CanCreate(LivestreamForm(" ", " ", "2024-02-01T10:00", "2024-01-01T10:00"))
  {
  }

  /** The state of the Livestream page: the list and the creation form. */
  class LivestreamPage {
    var livestreams: seq<Livestream>
    var newLivestream: LivestreamForm

    constructor (livestreams: seq<Livestream>)
      ensures this.livestreams == livestreams && newLivestream == EmptyForm()
    {
      this.livestreams := livestreams;
      newLivestream := EmptyForm();
    }

    /** `handleCreateLivestream`: on a complete form appends one livestream built from
        it and clears the four fields; otherwise changes nothing. */
    method CreateLivestream(id: int)
      modifies this
      ensures CanCreate(old(newLivestream)) ==>
        && livestreams == old(livestreams) + [NewLivestream(old(newLivestream), id)]
        && newLivestream == EmptyForm()
      ensures !CanCreate(old(newLivestream)) ==>
        livestreams == old(livestreams) && newLivestream == old(newLivestream)
    {
      if CanCreate(newLivestream) {
        var livestream := NewLivestream(newLivestream, id);
        livestreams := livestreams + [livestream];
        newLivestream := EmptyForm();
      }
    }
  }
}
