/** The demo scheduler of src/components/Scheduler.tsx: the fixed slot and
    demo tables, the validity test that enables "Schedule Demo", the guard
    that lets only available slots be picked, and the submit/reset cycle. */
module Scheduler {
  import opened Wrappers

  datatype TimeSlot = TimeSlot(id: nat, time: string, available: bool)
  datatype DemoType = DemoType(id: nat, name: string, description: string, duration: string)

  /** A day picked in the calendar. */
  type Date = nat

  const TimeSlots: seq<TimeSlot> := [
    TimeSlot(1, "09:00 AM", true),
    TimeSlot(2, "10:00 AM", true),
    TimeSlot(3, "11:00 AM", false),
    TimeSlot(4, "12:00 PM", true),
    TimeSlot(5, "01:00 PM", true),
    TimeSlot(6, "02:00 PM", false),
    TimeSlot(7, "03:00 PM", true),
    TimeSlot(8, "04:00 PM", true)
  ]

  const DemoTypes: seq<DemoType> := [
    DemoType(1, "MistrAI Demo", "Experience our large language model capabilities", "30 min"),
    DemoType(2, "Cura AI Demo", "Medical AI diagnostics and healthcare solutions", "45 min"),
    DemoType(3, "Lawsuit AI Demo", "Legal AI for document analysis and research", "45 min"),
    DemoType(4, "Defense Systems Demo", "Advanced security and defense AI solutions", "60 min"),
    DemoType(5, "Vision AI Demo", "Computer vision solutions for various industries", "30 min")
  ]

  /** Only the 11:00 AM and 02:00 PM slots (ids 3 and 6) are unavailable. */
  lemma UnavailableSlots()
    ensures forall k :: 0 <= k < |TimeSlots| ==> (!TimeSlots[k].available <==> TimeSlots[k].id == 3 || TimeSlots[k].id == 6)
    ensures forall k :: 0 <= k < |TimeSlots| ==> TimeSlots[k].id == k + 1
  {
  }

  class Scheduler {
    var selectedDate: Option<Date>
    var selectedTimeSlot: Option<TimeSlot>
    var selectedDemoType: Option<DemoType>
    var name: string
    var email: string
    var company: string
    var submitted: bool
    /** Reset timers set by submissions and not yet fired. */
    var pendingResets: nat

    /** Selections come from the tables, and a selected slot is available. */
    ghost predicate Valid()
      reads this
    {
      && (selectedTimeSlot.Some? ==> selectedTimeSlot.value in TimeSlots && selectedTimeSlot.value.available)
      && (selectedDemoType.Some? ==> selectedDemoType.value in DemoTypes)
    }

    /** `isFormValid`: name and email filled in, and a date, a slot and a
        demo chosen; the company is optional. */
    predicate IsFormValid()
      reads this
    {
      name != "" && email != "" && selectedDate.Some? && selectedTimeSlot.Some? && selectedDemoType.Some?
    }

    constructor ()
      ensures Valid() && !IsFormValid()
      ensures selectedDate == None && selectedTimeSlot == None && selectedDemoType == None
      ensures name == "" && email == "" && company == "" && !submitted && pendingResets == 0
    {
      selectedDate, selectedTimeSlot, selectedDemoType := None, None, None;
      name, email, company := "", "", "";
      submitted, pendingResets := false, 0;
    }

    /** The date picker's `onChange` (it reports no date when cleared). */
    method PickDate(date: Option<Date>)
      modifies this`selectedDate
      ensures selectedDate == date
    {
      selectedDate := date;
    }

    /** A click on the `k`-th slot button: only an available slot is taken;
        a click on an unavailable one changes nothing. */
    method PickSlot(k: nat)
      requires Valid() && k < |TimeSlots|
      modifies this`selectedTimeSlot
      ensures Valid()
      ensures TimeSlots[k].available ==> selectedTimeSlot == Some(TimeSlots[k])
      ensures !TimeSlots[k].available ==> selectedTimeSlot == old(selectedTimeSlot)
    {
      var slot := TimeSlots[k];
      if slot.available {
        selectedTimeSlot := Some(slot);
      }
    }

    /** A click on the `k`-th demo card replaces the chosen demo. */
    method PickDemo(k: nat)
      requires Valid() && k < |DemoTypes|
      modifies this`selectedDemoType
      ensures Valid()
      ensures selectedDemoType == Some(DemoTypes[k])
    {
      selectedDemoType := Some(DemoTypes[k]);
    }

    method EditName(value: string)
      modifies this`name
      ensures name == value
    {
      name := value;
    }

    method EditEmail(value: string)
      modifies this`email
      ensures email == value
    {
      email := value;
    }

    method EditCompany(value: string)
      modifies this`company
      ensures company == value
    {
      company := value;
    }

    /** `handleSubmit`: mark the booking submitted and set the reset timer;
        the entered data stays as it is. The "Schedule Demo" button, the
        form's only submit control, is disabled unless `isFormValid`. */
    method Submit()
      requires IsFormValid()
      modifies this`submitted, this`pendingResets
      ensures submitted && pendingResets == old(pendingResets) + 1
      ensures IsFormValid()
    {
      submitted := true;
      pendingResets := pendingResets + 1;
    }

    /** A reset timer fires: the submitted mark, the selections and the text
        fields are cleared, which leaves the form invalid. */
    method ResetDue()
      requires pendingResets > 0
      modifies this
      ensures Valid() && !IsFormValid()
      ensures !submitted && selectedDate == None && selectedTimeSlot == None && selectedDemoType == None
      ensures name == "" && email == "" && company == ""
      ensures pendingResets == old(pendingResets) - 1
    {
      submitted := false;
      selectedDate, selectedTimeSlot, selectedDemoType := None, None, None;
      name, email, company := "", "", "";
      pendingResets := pendingResets - 1;
    }
  }

  /** The slot a valid scheduler holds is neither 11:00 AM nor 02:00 PM. */
  lemma SelectedSlotBookable(s: Scheduler)
    requires s.Valid() && s.selectedTimeSlot.Some?
    ensures s.selectedTimeSlot.value.id != 3 && s.selectedTimeSlot.value.id != 6
    ensures s.selectedTimeSlot.value.time != "11:00 AM" && s.selectedTimeSlot.value.time != "02:00 PM"
  {
    UnavailableSlots();
  }
}
