/** The notification factory: a null or empty type yields null; otherwise
    the lower-cased type selects SMS, e-mail or push, and anything else is
    rejected with an `IllegalArgumentException` naming the original type. */
module NotificationFactory {
  import opened Common

  datatype Notification = SMSNotification | EmailNotification | PushNotification

  /** The line `notifyUser` prints. */
  function NotifyUser(n: Notification): string
  {
    match n
    case EmailNotification => "Sending an Email Notification"
    case SMSNotification => "Sending an SMS Notification"
    case PushNotification => "Sending a Push Notification"
  }

  /** The recognised type names, in lower case. */
  function TypeName(n: Notification): string
  {
    match n
    case SMSNotification => "sms"
    case EmailNotification => "email"
    case PushNotification => "push"
  }

  /** `createNotification`; `Ok(None)` is a null result. */
  function CreateNotification(notificationType: Option<string>): Result<Option<Notification>>
  {
    if notificationType.None? || notificationType.value == [] then Ok(None)
    else
      var t := notificationType.value;
      match ToLower(t)
      case "sms" => Ok(Some(SMSNotification))
      case "email" => Ok(Some(EmailNotification))
      case "push" => Ok(Some(PushNotification))
      case _ => Err("Unknown notification type " + t)
  }

  /** Null and the empty string give null, not an error. */
  lemma NullOrEmptyGivesNull(notificationType: Option<string>)
    requires notificationType.None? || notificationType.value == []
    ensures CreateNotification(notificationType) == Ok(None)
  {
  }

  /** A non-empty type yields notification `n` exactly when it lower-cases to
      `n`'s name, and fails, naming the original text, exactly when it
      lower-cases to none of the names. */
  lemma RecognisedIff(t: string, n: Notification)
    requires t != []
    ensures CreateNotification(Some(t)) == Ok(Some(n)) <==> ToLower(t) == TypeName(n)
    ensures CreateNotification(Some(t)).Err? <==> ToLower(t) !in {"sms", "email", "push"}
    ensures CreateNotification(Some(t)).Err? ==>
      CreateNotification(Some(t)) == Err("Unknown notification type " + t)
  {
  }

  /** Only the lower-cased type matters: two types that agree ignoring case
      give the same notification, or both fail. */
  lemma DependsOnlyOnLowerCase(t1: string, t2: string)
    requires ToLower(t1) == ToLower(t2)
    ensures CreateNotification(Some(t1)).Ok? == CreateNotification(Some(t2)).Ok?
    ensures CreateNotification(Some(t1)).Ok? ==> CreateNotification(Some(t1)) == CreateNotification(Some(t2))
  {
  }

  /** The demonstration: e-mail, SMS and push notify, "fax" is rejected;
      upper case is accepted too. */
  lemma DemoNotifications()
    ensures CreateNotification(Some("email")) == Ok(Some(EmailNotification))
    ensures CreateNotification(Some("sms")) == Ok(Some(SMSNotification))
    ensures CreateNotification(Some("push")) == Ok(Some(PushNotification))
    ensures CreateNotification(Some("fax")) == Err("Unknown notification type fax")
    ensures CreateNotification(Some("SMS")) == Ok(Some(SMSNotification))
  {
    assert ToLower("email") == "email";
    assert ToLower("sms") == "sms";
    assert ToLower("push") == "push";
    assert ToLower("fax") == "fax";
    assert ToLower("SMS") == "sms";
  }
}
