/** The home page: the testimonial carousel (a timer, previous/next arrows
    and one dot per testimonial) and the contact form. */
module HomePage {
  import opened JsString
  import opened Validators

  /** `testimonials.length`: the page ships three testimonials. */
  const TestimonialCount := 3

  /** `(prev + 1) % testimonials.length`, as the timer and the right arrow
      compute it: the following testimonial, wrapping from the last to the
      first. */
  function NextIndex(i: int, n: int): (r: int)
    requires 0 <= i < n
    ensures 0 <= r < n
    ensures r == i + 1 || (i == n - 1 && r == 0)
  {
    (i + 1) % n
  }

  /** `(prev - 1 + testimonials.length) % testimonials.length`, the left
      arrow: the preceding testimonial, wrapping from the first to the last.
      The dividend is never negative, so JavaScript's `%` and Dafny's agree. */
  function PreviousIndex(i: int, n: int): (r: int)
    requires 0 <= i < n
    ensures 0 <= r < n
    ensures r == i - 1 || (i == 0 && r == n - 1)
  {
    (i - 1 + n) % n
  }

  /** Going back and then forward shows the same testimonial again. */
  lemma NextUndoesPrevious(i: int, n: int)
    requires 0 <= i < n
    ensures NextIndex(PreviousIndex(i, n), n) == i
  {
  }

  /** Going forward and then back shows the same testimonial again. */
  lemma PreviousUndoesNext(i: int, n: int)
    requires 0 <= i < n
    ensures PreviousIndex(NextIndex(i, n), n) == i
  {
  }

  /** The index after `steps` ticks of the timer. */
  function Advance(i: int, n: int, steps: nat): (r: int)
    requires 0 <= i < n
    ensures 0 <= r < n
  {
    if steps == 0 then i else NextIndex(Advance(i, n, steps - 1), n)
  }

  /** The timer visits the testimonials in a cycle: within one round of `n`
      ticks it shows `i + steps`, wrapped once past the last testimonial, so
      every testimonial is shown and after `n` ticks the carousel is back
      where it started. */
  lemma {:induction false} AdvanceIsRotation(i: int, n: int, steps: nat)
    requires 0 <= i < n && steps <= n
    ensures Advance(i, n, steps) == if i + steps < n then i + steps else i + steps - n
    ensures steps == n ==> Advance(i, n, steps) == i
  {
    if steps > 0 {
      AdvanceIsRotation(i, n, steps - 1);
    }
  }

  /** What submitting the contact form leads to. */
  datatype ContactCheck =
    | FieldsRequired   // "All fields are required."
    | InvalidEmail     // "Please enter a valid email address."
    | MessageSent      // "Thank you for your message! We will get back to you soon."

  /** `handleContactSubmit`'s checks: every field non-blank, then the e-mail
      pattern. A message is sent exactly when the name and the message are
      not all whitespace and the address matches `^\S+@\S+\.\S+$`. */
  function CheckContact(name: string, email: string, message: string): (r: ContactCheck)
    ensures r == FieldsRequired <==> AllSpace(name) || AllSpace(email) || AllSpace(message)
    ensures r == MessageSent <==> !AllSpace(name) && !AllSpace(message) && MatchesEmailPattern(email)
  {
    BlankIff(name);
    BlankIff(email);
    BlankIff(message);
    EmailNotBlank(email);
    if IsBlank(name) || IsBlank(email) || IsBlank(message) then FieldsRequired
    else if !IsEmail(email) then InvalidEmail
    else MessageSent
  }

  class Home {
    var currentTestimonial: int
    var contactName: string
    var contactEmail: string
    var contactMessage: string

    ghost predicate Valid()
      reads this
    {
      0 <= currentTestimonial < TestimonialCount
    }

    constructor ()
      ensures Valid() && currentTestimonial == 0
      ensures contactName == [] && contactEmail == [] && contactMessage == []
    {
      currentTestimonial := 0;
      contactName, contactEmail, contactMessage := [], [], [];
    }

    /** The five-second timer and the right arrow. */
    method ShowNext()
      requires Valid()
      modifies this`currentTestimonial
      ensures Valid()
      ensures currentTestimonial == NextIndex(old(currentTestimonial), TestimonialCount)
    {
      currentTestimonial := NextIndex(currentTestimonial, TestimonialCount);
    }

    /** The left arrow. */
    method ShowPrevious()
      requires Valid()
      modifies this`currentTestimonial
      ensures Valid()
      ensures currentTestimonial == PreviousIndex(old(currentTestimonial), TestimonialCount)
    {
      currentTestimonial := PreviousIndex(currentTestimonial, TestimonialCount);
    }

    /** A dot: the page draws one per testimonial, so `index` is in range. */
    method Select(index: int)
      requires 0 <= index < TestimonialCount
      modifies this`currentTestimonial
      ensures Valid() && currentTestimonial == index
    {
      currentTestimonial := index;
    }

    /** The form fields' `onChange` handlers. */
    method EditContact(name: string, email: string, message: string)
      modifies this`contactName, this`contactEmail, this`contactMessage
      ensures contactName == name && contactEmail == email && contactMessage == message
    {
      contactName, contactEmail, contactMessage := name, email, message;
    }

    /** `handleContactSubmit`: the form is cleared only when the message is
        sent; otherwise it is left for correction. */
    method SubmitContact() returns (r: ContactCheck)
      modifies this`contactName, this`contactEmail, this`contactMessage
      ensures r == CheckContact(old(contactName), old(contactEmail), old(contactMessage))
      ensures r == MessageSent ==> contactName == [] && contactEmail == [] && contactMessage == []
      ensures r != MessageSent ==> contactName == old(contactName) && contactEmail == old(contactEmail)
                                   && contactMessage == old(contactMessage)
    {
      r := CheckContact(contactName, contactEmail, contactMessage);
      if r == MessageSent {
        contactName, contactEmail, contactMessage := [], [], [];
      }
    }
  }
}
