/**
 * `POST /api/boss`: create a boss from the form fields. The numeric fields
 * go through `parseInt`; the boss starts at full health. The session, the
 * storage upload, its base URL and the clock are inputs.
 */
module BossRoute {
  import opened Wrappers
  import JsText
  import FileName

  /** The form fields; a missing field is `None`, and `image` is the uploaded file's name. */
  datatype Form = Form(
    name: Option<string>, description: Option<string>, maxHp: Option<string>,
    attackPower: Option<string>, attackTurn: Option<string>, difficulty: Option<string>,
    image: Option<string>)

  /** The stored boss row. */
  datatype BossRecord = BossRecord(
    name: string, description: string, maxHp: int, hp: int, attackPower: int, attackTurn: int,
    difficulty: int, imageUrl: Option<string>, authorId: string)

  datatype Response = Forbidden | BadRequest | UploadFailed | Created(boss: BossRecord)

  /** The four numeric fields as `parseInt` reads them; `None` is `NaN`. */
  datatype Numbers = Numbers(maxHp: Option<int>, attackPower: Option<int>, attackTurn: Option<int>, difficulty: Option<int>)

  /** `parseInt` of one form field. */
  function ReadNumber(field: Option<string>): (n: Option<int>) {
    JsText.ParseInt(JsText.FieldText(field))
  }

  /** The numeric fields of the form. */
  function ReadNumbers(form: Form): (numbers: Numbers) {
    Numbers(ReadNumber(form.maxHp), ReadNumber(form.attackPower), ReadNumber(form.attackTurn), ReadNumber(form.difficulty))
  }

  /** Every number parsed. */
  predicate AllRead(n: Numbers) {
    n.maxHp.Some? && n.attackPower.Some? && n.attackTurn.Some? && n.difficulty.Some?
  }

  /** Every field the route requires is usable: a name, a description and four numbers. */
  predicate Complete(form: Form) {
    JsText.Truthy(form.name) && JsText.Truthy(form.description) && AllRead(ReadNumbers(form))
  }

  /** The stored row: full health, the numbers as read. */
  function Boss(name: string, description: string, n: Numbers, imageUrl: Option<string>, author: string): (boss: BossRecord)
    requires AllRead(n)
  {
    BossRecord(name, description, n.maxHp.value, n.maxHp.value, n.attackPower.value, n.attackTurn.value,
               n.difficulty.value, imageUrl, author)
  }

  /**
   * The route. Checks in order: a session (403), then the name, the
   * description and the four numbers (400), then the upload when an image
   * is sent (500). The boss is stored with its health equal to its
   * maximum, the parsed numbers as they are (no range check), and the
   * session user as author. `session` is the signed-in user's id.
   */
  function Post(session: Option<string>, form: Form, uploadOk: bool, now: int, publicBase: string): (r: Response)
    ensures session.None? ==> r == Forbidden
    ensures session.Some? && !Complete(form) ==> r == BadRequest
    ensures r == UploadFailed <==> session.Some? && Complete(form) && form.image.Some? && !uploadOk
    ensures r.Created? <==> session.Some? && Complete(form) && (form.image.None? || uploadOk)
    ensures r.Created? ==>
      && r.boss.hp == r.boss.maxHp
      && r.boss.name == form.name.value && r.boss.description == form.description.value
      && Some(r.boss.maxHp) == ReadNumber(form.maxHp) && Some(r.boss.attackPower) == ReadNumber(form.attackPower)
      && Some(r.boss.attackTurn) == ReadNumber(form.attackTurn) && Some(r.boss.difficulty) == ReadNumber(form.difficulty)
      && r.boss.authorId == session.value
      && (r.boss.imageUrl.Some? <==> form.image.Some?)
      && (form.image.Some? ==> r.boss.imageUrl == Some(publicBase + FileName.UploadPath(now, form.image.value)))
  {
    if session.None? then Forbidden
    else if !Complete(form) then BadRequest
    else if form.image.Some? && !uploadOk then UploadFailed
    else
      var imageUrl := if form.image.Some? then Some(publicBase + FileName.UploadPath(now, form.image.value)) else None;
      Created(Boss(form.name.value, form.description.value, ReadNumbers(form), imageUrl, session.value))
  }

  /**
   * The decimal text of any integers, zero and negative ones included, is
   * stored as that integer: the route checks only that the numbers parse.
   */
  lemma StoresAnyNumbers(author: string, name: string, description: string,
                         maxHp: int, attackPower: int, attackTurn: int, difficulty: int)
    requires name != [] && description != []
    ensures Post(Some(author), Form(Some(name), Some(description), Some(JsText.IntToString(maxHp)),
                                    Some(JsText.IntToString(attackPower)), Some(JsText.IntToString(attackTurn)),
                                    Some(JsText.IntToString(difficulty)), None), false, 0, "") ==
      Created(BossRecord(name, description, maxHp, maxHp, attackPower, attackTurn, difficulty, None, author))
  {
    var form := Form(Some(name), Some(description), Some(JsText.IntToString(maxHp)),
                     Some(JsText.IntToString(attackPower)), Some(JsText.IntToString(attackTurn)),
                     Some(JsText.IntToString(difficulty)), None);
    assert ReadNumbers(form) == Numbers(Some(maxHp), Some(attackPower), Some(attackTurn), Some(difficulty)) by {
      JsText.ParseIntOfIntToString(maxHp);
      JsText.ParseIntOfIntToString(attackPower);
      JsText.ParseIntOfIntToString(attackTurn);
      JsText.ParseIntOfIntToString(difficulty);
    }
  }
}
