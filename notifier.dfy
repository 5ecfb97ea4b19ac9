/** The webhook message builder: a plain message, or an embed with a title, the content
    as description and a colour. The HTTP post itself is not modelled. */
module Notifier {
  import opened Candles

  const PlusIcon: string := "https://as2.ftcdn.net/v2/jpg/02/22/71/79/1000_F_222717975_8TfDJLKSAjUmukqhJFcfrhGaNP9xaePZ.jpg"
  const HistoricIcon: string := "https://cdn-icons-png.flaticon.com/512/2961/2961948.png"

  const Red: int := 15158332
  const Green: int := 3066993
  const Yellow: int := 16776960
  /** The colour of an embed whose colour name is unknown. */
  const White: int := 16777215

  /** The avatar of a message kind; only "plus" and "historic" have one. */
  function IconUrl(kind: string): (url: Option<string>)
    ensures url.Some? <==> kind == "plus" || kind == "historic"
  {
    if kind == "plus" then Some(PlusIcon)
    else if kind == "historic" then Some(HistoricIcon)
    else None
  }

  /** The embed colour of a colour name. */
  function ColorCode(color: string): (code: int)
    ensures color == "red" ==> code == Red
    ensures color == "green" ==> code == Green
    ensures color == "yellow" ==> code == Yellow
    ensures code == White <==> color != "red" && color != "green" && color != "yellow"
  {
    if color == "red" then Red
    else if color == "green" then Green
    else if color == "yellow" then Yellow
    else White
  }

  function Digit(d: int): char
    requires 0 <= d < 10
  {
    "0123456789"[d]
  }

  /** A number below 100 written with two digits. */
  function TwoDigits(n: int): (s: string)
    requires 0 <= n < 100
    ensures |s| == 2 && '0' <= s[0] <= '9' && '0' <= s[1] <= '9'
    ensures (s[0] as int - '0' as int) * 10 + (s[1] as int - '0' as int) == n
  {
    [Digit(n / 10), Digit(n % 10)]
  }

  /** The run time the hourly title names: today's date (as "YYYY-MM-DD") at the given
      hour, on the hour. */
  function RunTime(today: string, hour: int): (r: string)
    requires 0 <= hour < 24
    ensures |r| == |today| + 9 && r[..|today|] == today && r[|today|] == ' '
    ensures (r[|today| + 1] as int - '0' as int) * 10 + (r[|today| + 2] as int - '0' as int) == hour
    ensures r[|today| + 3..] == ":00:00"
  {
    today + " " + TwoDigits(hour) + ":00:00"
  }

  /** The daily title names the user right after its leading space. */
  function DailyTitle(username: string): (t: string)
    ensures |t| == |username| + 14 && t[0] == ' ' && t[1..|username| + 1] == username
    ensures t[|username| + 1..] == " Daily Update"
  {
    " " + username + " Daily Update"
  }

  /** The hourly title names the user and ends with the run time. */
  function HourlyTitle(username: string, today: string, hour: int): (t: string)
    requires 0 <= hour < 24
    ensures |t| == |username| + |today| + 28 && t[0] == ' ' && t[1..|username| + 1] == username
    ensures t[|username| + 1..|username| + 19] == " Hourly Update on " && t[|username| + 19..] == RunTime(today, hour)
  {
    " " + username + " Hourly Update on " + RunTime(today, hour)
  }

  /** A daily title never reads as an hourly one. */
  lemma TitlesDiffer(username: string, today: string, hour: int)
    requires 0 <= hour < 24
    ensures DailyTitle(username) != HourlyTitle(username, today, hour)
  {
    var k := |username| + 2;
    assert DailyTitle(username)[k] == 'D';
    assert HourlyTitle(username, today, hour)[k] == 'H';
  }

  datatype Embed = Embed(title: string, description: Content, color: int)

  /** The JSON body posted to the webhook. */
  datatype Message =
    | Plain(content: Content, username: string, avatarUrl: string)
    | Embedded(embed: Embed, username: string, avatarUrl: string)

  /** Why no message is built: the hour is no hour of the day, or the kind has no avatar. */
  datatype SendError = BadHour(hour: int) | UnknownIcon(kind: string)

  datatype Built = Ready(message: Message) | Rejected(error: SendError)

  /** The message for one call of the sender, on the day `today`. An embed first sets the
      run time's hour, which fails for an hour outside 0..23; the avatar lookup comes
      after and fails for an unknown kind. */
  function BuildMessage(note: Notification, today: string): (b: Built)
    ensures note.embed && !(0 <= note.hour < 24) ==> b == Rejected(BadHour(note.hour))
    ensures (!note.embed || 0 <= note.hour < 24) && IconUrl(note.kind).None? ==> b == Rejected(UnknownIcon(note.kind))
    ensures b.Ready? <==> (!note.embed || 0 <= note.hour < 24) && IconUrl(note.kind).Some?
    ensures b.Ready? ==>
      b.message.username == note.username && Some(b.message.avatarUrl) == IconUrl(note.kind) &&
      (b.message.Embedded? <==> note.embed)
    ensures b.Ready? && note.embed ==>
      b.message.embed.description == note.content && b.message.embed.color == ColorCode(note.color) &&
      b.message.embed.title == (if note.daily then DailyTitle(note.username)
                                else HourlyTitle(note.username, today, note.hour))
    ensures b.Ready? && !note.embed ==> b.message.content == note.content
  {
    if note.embed then
      if !(0 <= note.hour < 24) then Rejected(BadHour(note.hour))
      else
        var title := if note.daily then DailyTitle(note.username) else HourlyTitle(note.username, today, note.hour);
        match IconUrl(note.kind)
        case None => Rejected(UnknownIcon(note.kind))
        case Some(url) => Ready(Embedded(Embed(title, note.content, ColorCode(note.color)), note.username, url))
    else
      match IconUrl(note.kind)
      case None => Rejected(UnknownIcon(note.kind))
      case Some(url) => Ready(Plain(note.content, note.username, url))
  }
}
