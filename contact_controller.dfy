/**
 * The contact endpoint of the storefront server (POST /api/contact/send):
 * check the required fields of a contact form, compose a fixed-template mail
 * to the shop's own mailbox and answer with 400, 200 or 500.
 *
 * The mail transport and its credentials are not modelled: the configured
 * sender address is a parameter, and what the transport did with the mail is
 * an abstract SendOutcome.
 */
module Contact {
  import opened Wrappers

  /** One field of the request body: absent (`undefined`/`null`) or a string. */
  type Field = Option<string>

  /** The request body: `nombre`, `email`, `telefono` (optional), `asunto`, `mensaje`. */
  datatype ContactForm = ContactForm(nombre: Field, email: Field, telefono: Field, asunto: Field, mensaje: Field)

  /** A mail message: the envelope fields and the body text. */
  datatype Mail = Mail(from: string, to: string, subject: string, text: string, replyTo: string)

  /** What the transport did with the mail: delivered it, or threw an error with this message. */
  datatype SendOutcome = Sent | SendFailed(message: string)

  /** The JSON body of a response: `{ message }` or `{ message, error }`. */
  datatype ResponseBody = Ack(message: string) | Fault(message: string, error: string)

  /** An HTTP response: its status code and JSON body. */
  datatype Response = Response(status: nat, body: ResponseBody)

  const ValidationMessage := "Todos los campos obligatorios deben estar completos"
  const SuccessMessage := "Mensaje enviado correctamente. Nos pondremos en contacto pronto."
  const SendFailureMessage := "Error al enviar el mensaje"
  const SubjectPrefix := "Nuevo mensaje de contacto: "
  const PhoneFallback := "No proporcionado"
  const BodyHeading := "Nuevo mensaje de contacto desde Áurea Virtual Shop"

  /** JavaScript truthiness of a string field: present and not the empty string. */
  function Truthy(f: Field): (r: bool)
    ensures r <==> f != None && f != Some("")
  {
    f.Some? && f.value != ""
  }

  /** The required-field check: `nombre`, `email`, `asunto` and `mensaje` are all truthy; `telefono` is not consulted. */
  function IsComplete(form: ContactForm): (r: bool)
    ensures r <==>
      && form.nombre != None && form.nombre != Some("")
      && form.email != None && form.email != Some("")
      && form.asunto != None && form.asunto != Some("")
      && form.mensaje != None && form.mensaje != Some("")
  {
    Truthy(form.nombre) && Truthy(form.email) && Truthy(form.asunto) && Truthy(form.mensaje)
  }

  /** `telefono || 'No proporcionado'`. */
  function PhoneShown(telefono: Field): (r: string)
    ensures Truthy(telefono) ==> r == telefono.value
    ensures !Truthy(telefono) ==> r == PhoneFallback
  {
    if Truthy(telefono) then telefono.value else PhoneFallback
  }

  /** One labelled line of the template: the caption, the value and a newline. */
  function Line(caption: string, value: string): string {
    caption + value + "\n"
  }

  /** The template's opening: a newline, the heading line and a blank line. */
  function Opening(): string {
    "\n" + BodyHeading + "\n" + "\n"
  }

  /**
   * `mensajeCompleto`: the fixed template, with its leading newline and
   * trailing indentation. It opens with the heading and ends with the message
   * line and the indentation.
   */
  function MessageBody(nombre: string, email: string, telefono: Field, asunto: string, mensaje: string): (r: string)
    ensures AppearsAt(r, Opening(), 0)
    ensures |r| >= |Line("Mensaje:\n", mensaje)| + 4
    ensures AppearsAt(r, Line("Mensaje:\n", mensaje) + "    ", |r| - |Line("Mensaje:\n", mensaje)| - 4)
  {
    var s0 := Opening();
    var s1 := s0 + Line("Nombre: ", nombre);
    var s2 := s1 + Line("Email: ", email);
    var s3 := s2 + Line("Teléfono: ", PhoneShown(telefono));
    var s4 := s3 + Line("Asunto: ", asunto);
    var s5 := s4 + "\n";
    var m := Line("Mensaje:\n", mensaje);
    AppearsAtEnd("", s0);
    AppearsInLonger(s0, s0, 0, Line("Nombre: ", nombre));
    AppearsInLonger(s1, s0, 0, Line("Email: ", email));
    AppearsInLonger(s2, s0, 0, Line("Teléfono: ", PhoneShown(telefono)));
    AppearsInLonger(s3, s0, 0, Line("Asunto: ", asunto));
    AppearsInLonger(s4, s0, 0, "\n");
    AppearsInLonger(s5, s0, 0, m);
    AppearsInLonger(s5 + m, s0, 0, "    ");
    AppearsAtEnd(s5, m + "    ");
    assert s5 + (m + "    ") == s5 + m + "    ";
    s5 + m + "    "
  }

  /** `part` occurs in `s` starting at index `k`. */
  predicate AppearsAt(s: string, part: string, k: nat) {
    k + |part| <= |s| && s[k..k + |part|] == part
  }

  /** The second part of a concatenation occurs right after the first. */
  lemma AppearsAtEnd(x: string, y: string)
    ensures AppearsAt(x + y, y, |x|)
  {
    assert (x + y)[|x|..|x| + |y|] == y;
  }

  /** An occurrence survives appending text. */
  lemma AppearsInLonger(s: string, part: string, k: nat, w: string)
    requires AppearsAt(s, part, k)
    ensures AppearsAt(s + w, part, k)
  {
    assert (s + w)[k..k + |part|] == s[k..k + |part|];
  }

  /**
   * The body shows the heading and then each field on its own labelled line,
   * in the order Nombre, Email, Teléfono, Asunto, Mensaje, with no line
   * overlapping the next; only the trailing indentation follows the message.
   */
  lemma BodyListsFieldsInOrder(nombre: string, email: string, telefono: Field, asunto: string, mensaje: string)
    ensures var body := MessageBody(nombre, email, telefono, asunto, mensaje);
      exists k1: nat, k2: nat, k3: nat, k4: nat, k5: nat ::
        && AppearsAt(body, BodyHeading, 1)
        && 1 + |BodyHeading| <= k1
        && AppearsAt(body, Line("Nombre: ", nombre), k1)
        && k1 + |Line("Nombre: ", nombre)| <= k2
        && AppearsAt(body, Line("Email: ", email), k2)
        && k2 + |Line("Email: ", email)| <= k3
        && AppearsAt(body, Line("Teléfono: ", PhoneShown(telefono)), k3)
        && k3 + |Line("Teléfono: ", PhoneShown(telefono))| <= k4
        && AppearsAt(body, Line("Asunto: ", asunto), k4)
        && k4 + |Line("Asunto: ", asunto)| <= k5
        && AppearsAt(body, Line("Mensaje:\n", mensaje), k5)
        && k5 + |Line("Mensaje:\n", mensaje)| + 4 == |body|
  {
    var n, e := Line("Nombre: ", nombre), Line("Email: ", email);
    var t, a := Line("Teléfono: ", PhoneShown(telefono)), Line("Asunto: ", asunto);
    var m := Line("Mensaje:\n", mensaje);
    var s0 := Opening();
    var s1 := s0 + n;
    var s2 := s1 + e;
    var s3 := s2 + t;
    var s4 := s3 + a;
    var s5 := s4 + "\n";
    var s6 := s5 + m;
    var body := s6 + "    ";
    assert body == MessageBody(nombre, email, telefono, asunto, mensaje);

    AppearsAtEnd("\n", BodyHeading);
    AppearsInLonger("\n" + BodyHeading, BodyHeading, 1, "\n");
    AppearsInLonger("\n" + BodyHeading + "\n", BodyHeading, 1, "\n");
    AppearsInLonger(s0, BodyHeading, 1, n);
    AppearsInLonger(s1, BodyHeading, 1, e);
    AppearsInLonger(s2, BodyHeading, 1, t);
    AppearsInLonger(s3, BodyHeading, 1, a);
    AppearsInLonger(s4, BodyHeading, 1, "\n");
    AppearsInLonger(s5, BodyHeading, 1, m);
    AppearsInLonger(s6, BodyHeading, 1, "    ");

    AppearsAtEnd(s0, n);
    AppearsInLonger(s1, n, |s0|, e);
    AppearsInLonger(s2, n, |s0|, t);
    AppearsInLonger(s3, n, |s0|, a);
    AppearsInLonger(s4, n, |s0|, "\n");
    AppearsInLonger(s5, n, |s0|, m);
    AppearsInLonger(s6, n, |s0|, "    ");

    AppearsAtEnd(s1, e);
    AppearsInLonger(s2, e, |s1|, t);
    AppearsInLonger(s3, e, |s1|, a);
    AppearsInLonger(s4, e, |s1|, "\n");
    AppearsInLonger(s5, e, |s1|, m);
    AppearsInLonger(s6, e, |s1|, "    ");

    AppearsAtEnd(s2, t);
    AppearsInLonger(s3, t, |s2|, a);
    AppearsInLonger(s4, t, |s2|, "\n");
    AppearsInLonger(s5, t, |s2|, m);
    AppearsInLonger(s6, t, |s2|, "    ");

    AppearsAtEnd(s3, a);
    AppearsInLonger(s4, a, |s3|, "\n");
    AppearsInLonger(s5, a, |s3|, m);
    AppearsInLonger(s6, a, |s3|, "    ");

    AppearsAtEnd(s5, m);
    AppearsInLonger(s6, m, |s5|, "    ");

    var k1, k2, k3, k4, k5 := |s0|, |s1|, |s2|, |s3|, |s5|;
    assert AppearsAt(body, BodyHeading, 1) && 1 + |BodyHeading| <= k1;
    assert AppearsAt(body, n, k1) && k1 + |n| <= k2;
    assert AppearsAt(body, e, k2) && k2 + |e| <= k3;
    assert AppearsAt(body, t, k3) && k3 + |t| <= k4;
    assert AppearsAt(body, a, k4) && k4 + |a| <= k5;
    assert AppearsAt(body, m, k5) && k5 + |m| + 4 == |body|;
  }

  /** The mail composed for a complete form, from and to the configured address `sender`. */
  function ComposeMail(form: ContactForm, sender: string): (mail: Mail)
    requires IsComplete(form)
    ensures mail.from == sender && mail.to == sender
    ensures mail.replyTo == form.email.value
    ensures |mail.subject| == |SubjectPrefix| + |form.asunto.value|
    ensures mail.subject[..|SubjectPrefix|] == SubjectPrefix && mail.subject[|SubjectPrefix|..] == form.asunto.value
    ensures mail.text == MessageBody(form.nombre.value, form.email.value, form.telefono, form.asunto.value, form.mensaje.value)
  {
    Mail(
      from := sender,
      to := sender,
      subject := SubjectPrefix + form.asunto.value,
      text := MessageBody(form.nombre.value, form.email.value, form.telefono, form.asunto.value, form.mensaje.value),
      replyTo := form.email.value)
  }

  /**
   * sendContactMessage: reject an incomplete form with 400 before any mail is
   * composed; otherwise compose the mail (returned as `outbox`), try to send
   * it, and answer 200 when it was sent or 500 with the transport's
   * error message when it failed.
   */
  method SendContactMessage(form: ContactForm, sender: string, send: SendOutcome)
    returns (response: Response, outbox: Option<Mail>)
    ensures !Truthy(form.nombre) || !Truthy(form.email) || !Truthy(form.asunto) || !Truthy(form.mensaje) ==>
      response == Response(400, Ack(ValidationMessage)) && outbox == None
    ensures IsComplete(form) ==> outbox.Some?
    ensures outbox.Some? ==>
      && outbox.value.from == sender
      && outbox.value.to == sender
      && outbox.value.replyTo == form.email.value
      && outbox.value.subject == SubjectPrefix + form.asunto.value
      && outbox.value.text == MessageBody(form.nombre.value, form.email.value, form.telefono, form.asunto.value, form.mensaje.value)
    ensures outbox.Some? && send == Sent ==> response == Response(200, Ack(SuccessMessage))
    ensures outbox.Some? && send.SendFailed? ==> response == Response(500, Fault(SendFailureMessage, send.message))
  {
    if !IsComplete(form) {
      return Response(400, Ack(ValidationMessage)), None;
    }
    var mail := ComposeMail(form, sender);
    outbox := Some(mail);
    match send {
      case Sent =>
        response := Response(200, Ack(SuccessMessage));
      case SendFailed(message) =>
        response := Response(500, Fault(SendFailureMessage, message));
    }
  }
}
