/**
 * The booking form of app/booking.tsx: six text fields, each input
 * replacing only its own field, and a submit that either asks for the
 * missing fields or confirms and offers to go back to the tabs.
 */
module Booking {
  import opened Options
  import opened Device

  datatype Field = FullName | Email | Phone | StartDate | EndDate | Address

  datatype BookingForm = BookingForm(
    fullName: string, email: string, phone: string, startDate: string, endDate: string, address: string)

  const EmptyForm: BookingForm := BookingForm("", "", "", "", "", "")

  const MissingTitle: string := "Error"
  const MissingMessage: string := "Please fill in all fields"
  const SuccessTitle: string := "Success"
  const SuccessMessage: string := "Your booking has been submitted successfully!"

  /** The fields in the order the screen shows them. */
  const AllFields: seq<Field> := [FullName, Email, Phone, StartDate, EndDate, Address]

  /** Where a field stands in `AllFields`. */
  function Slot(field: Field): (k: nat)
    ensures k < |AllFields| && AllFields[k] == field
  {
    match field
    case FullName => 0
    case Email => 1
    case Phone => 2
    case StartDate => 3
    case EndDate => 4
    case Address => 5
  }

  function Get(f: BookingForm, field: Field): string {
    match field
    case FullName => f.fullName
    case Email => f.email
    case Phone => f.phone
    case StartDate => f.startDate
    case EndDate => f.endDate
    case Address => f.address
  }

  /** `setFormData({ ...formData, [field]: text })`: the field reads `text` and every other field is as before. */
  function Update(f: BookingForm, field: Field, text: string): (r: BookingForm)
    ensures Get(r, field) == text
    ensures forall g :: g != field ==> Get(r, g) == Get(f, g)
  {
    match field
    case FullName => f.(fullName := text)
    case Email => f.(email := text)
    case Phone => f.(phone := text)
    case StartDate => f.(startDate := text)
    case EndDate => f.(endDate := text)
    case Address => f.(address := text)
  }

  /** Two forms that agree on every field are the same form. */
  lemma FieldsDetermineForm(f: BookingForm, g: BookingForm)
    requires forall field :: Get(f, field) == Get(g, field)
    ensures f == g
  {
    assert Get(f, FullName) == Get(g, FullName) && Get(f, Email) == Get(g, Email);
    assert Get(f, Phone) == Get(g, Phone) && Get(f, StartDate) == Get(g, StartDate);
    assert Get(f, EndDate) == Get(g, EndDate) && Get(f, Address) == Get(g, Address);
  }

  /** Typing the text a field already holds changes nothing; typing twice keeps the last text. */
  lemma UpdateLaws(f: BookingForm, field: Field, a: string, b: string)
    ensures Update(f, field, Get(f, field)) == f
    ensures Update(Update(f, field, a), field, b) == Update(f, field, b)
  {
    FieldsDetermineForm(Update(f, field, Get(f, field)), f);
    FieldsDetermineForm(Update(Update(f, field, a), field, b), Update(f, field, b));
  }

  /** The required-fields test of `handleSubmit`: all six are non-empty. */
  predicate Complete(f: BookingForm) {
    f.fullName != "" && f.email != "" && f.phone != "" && f.startDate != "" && f.endDate != "" && f.address != ""
  }

  lemma CompleteMeansEveryField(f: BookingForm)
    ensures Complete(f) <==> forall field :: Get(f, field) != ""
  {
    if !Complete(f) {
      assert Get(f, FullName) == "" || Get(f, Email) == "" || Get(f, Phone) == ""
        || Get(f, StartDate) == "" || Get(f, EndDate) == "" || Get(f, Address) == "";
    }
  }

  /** The alert `handleSubmit` shows: only a complete form gets the success dialog, whose OK goes to '/(tabs)'. */
  function SubmitAlert(f: BookingForm): (a: Alert)
    ensures a.Dialog?
    ensures a.onOk == Some(TabsRoute) <==> Complete(f)
    ensures !Complete(f) ==> a.title == MissingTitle && a.message == MissingMessage && a.onOk.None?
    ensures Complete(f) ==> a.title == SuccessTitle && a.message == SuccessMessage
  {
    if !Complete(f) then Dialog(MissingTitle, MissingMessage, None)
    else Dialog(SuccessTitle, SuccessMessage, Some(TabsRoute))
  }

  /** Submitting straight away, with every field still empty, asks for the fields. */
  lemma EmptyFormRefused()
    ensures SubmitAlert(EmptyForm) == Dialog(MissingTitle, MissingMessage, None)
  {
  }

  /** Clearing any one field of a form makes a submit ask for the fields again. */
  lemma ClearedFieldRefused(f: BookingForm, field: Field)
    ensures !Complete(Update(f, field, ""))
  {
    CompleteMeansEveryField(Update(f, field, ""));
  }

  class BookingScreen {
    const device: Device
    /** The `id` route parameter; it is only logged. */
    const carId: string
    var formData: BookingForm

    constructor (device: Device, carId: string)
      ensures this.device == device && this.carId == carId
      ensures formData == EmptyForm
    {
      this.device := device;
      this.carId := carId;
      formData := EmptyForm;
    }

    /** One input's `onChangeText`. */
    method OnChangeText(field: Field, text: string)
      modifies this
      ensures formData == Update(old(formData), field, text)
      ensures Get(formData, field) == text
      ensures forall g :: g != field ==> Get(formData, g) == Get(old(formData), g)
    {
      formData := Update(formData, field, text);
    }

    /** `handleSubmit`: one alert, no request; nothing else changes until its OK is pressed. */
    method HandleSubmit()
      modifies device
      ensures device.alerts == old(device.alerts) + [SubmitAlert(formData)]
      ensures device.storage == old(device.storage) && device.route == old(device.route)
    {
      if !Complete(formData) {
        device.Show(Dialog(MissingTitle, MissingMessage, None));
        return;
      }
      device.Show(Dialog(SuccessTitle, SuccessMessage, Some(TabsRoute)));
    }
  }

  /**
   * Typing the six fields in turn, whatever the form held before, leaves each
   * field with its own text, so a submit accepts the form exactly when every
   * text is non-empty.
   */
  lemma FillAll(f: BookingForm, texts: seq<string>)
    requires |texts| == 6
    ensures var filled := Update(Update(Update(Update(Update(Update(f,
                            FullName, texts[0]), Email, texts[1]), Phone, texts[2]),
                            StartDate, texts[3]), EndDate, texts[4]), Address, texts[5]);
      && (forall field :: Get(filled, field) == texts[Slot(field)])
      && (Complete(filled) <==> forall k :: 0 <= k < 6 ==> texts[k] != "")
  {
  }
}
