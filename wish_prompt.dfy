/**
 * The user message for a lì xì wish: the denomination's tone guidance, an
 * optional line naming the recipient, and a fixed closing instruction, one
 * per line. The system prompt is a fixed text.
 */
module WishPrompt {
  import opened Wrappers
  import opened Text
  import opened Schemas

  /** Tone guidance per denomination; every denomination has an entry. */
  function TierGuidance(lixiType: LixiType): string
  {
    match lixiType
    case K50 =>
      "Mệnh giá 50.000đ – nhỏ nhưng ý nghĩa. "
      + "Giọng nhẹ nhàng, ấm áp, mang ý bình an, khởi đầu may mắn."
    case K100 =>
      "Mệnh giá 100.000đ – vừa phải, tốt lành. "
      + "Giọng vui vẻ, trang trọng, chúc an khang thịnh vượng."
    case K200 =>
      "Mệnh giá 200.000đ – khá may mắn. "
      + "Giọng phấn khởi, chúc tài lộc hanh thông, công việc thuận buồm."
    case K500 =>
      "Mệnh giá 500.000đ – rất may mắn! "
      + "Giọng hào sảng, đại phát tài, phú quý song toàn."
    case Special =>
      "Mệnh giá ĐẶC BIỆT – jackpot siêu hiếm! "
      + "Giọng phấn khích, chúc mừng đặc biệt, siêu may mắn, rực rỡ cả năm."
  }

  /** The persona and rules sent as the system message of every wish request. */
  const WishSystemPrompt: string :=
    "Bạn là một nhà thư pháp Việt Nam chuyên viết lời chúc Tết Nguyên Đán.\n"
    + "\n"
    + "QUY TẮC BẮT BUỘC:\n"
    + "- Viết ĐÚNG 1 câu chúc duy nhất, tối đa 40 từ.\n"
    + "- Sử dụng tiếng Việt có dấu, văn phong trang nhã nhưng gần gũi.\n"
    + "- Có thể thêm 1-2 emoji phù hợp ở cuối câu.\n"
    + "- KHÔNG dùng markdown, KHÔNG xuống dòng, KHÔNG giải thích thêm.\n"
    + "- Mỗi lời chúc phải KHÁC BIỆT, sáng tạo, không lặp lại khuôn mẫu.\n"
    + "- Nếu có tên người nhận, hãy gọi tên thân mật ở đầu câu.\n"

  const TierPrefix: string := "Mệnh giá: "
  const RecipientPrefix: string := "Người nhận tên: "
  const WishClosing: string := "Hãy viết 1 câu chúc Tết:"

  /** A user message around a first line `head`: the head, then the tail
      lines, joined by newlines. */
  function Message(head: string, userName: Option<string>): string
  {
    Join([head] + TailLines(userName), "\n")
  }

  /** The user message for a denomination: its guidance, after the prefix,
      is the first line. */
  function UserPrompt(lixiType: LixiType, userName: Option<string>): string
  {
    Message(TierPrefix + TierGuidance(lixiType), userName)
  }

  /** Builds the user message the way the service does: the denomination's
      guidance is looked up, then the message is assembled around it. */
  method BuildWishPrompt(lixiType: LixiType, userName: Option<string>) returns (prompt: string)
    ensures prompt == UserPrompt(lixiType, userName)
  {
    prompt := BuildMessage(TierPrefix + TierGuidance(lixiType), userName);
  }

  /** Assembles a message the way the service does: a list of parts that
      grows by appending, then joined with newlines. */
  method BuildMessage(head: string, userName: Option<string>) returns (prompt: string)
    ensures prompt == Message(head, userName)
  {
    var parts := [head];
    if HasName(userName) {
      parts := parts + [RecipientPrefix + userName.value];
    }
    parts := parts + [WishClosing];
    assert parts == [head] + TailLines(userName);
    prompt := Join(parts, "\n");
  }

  /** The lines that follow the denomination line: the recipient line when a
      non-empty name was given, then the closing line. */
  function TailLines(userName: Option<string>): seq<string>
  {
    (if HasName(userName) then [RecipientPrefix + userName.value] else []) + [WishClosing]
  }

  /** None of the lines after the denomination line spans lines itself. */
  lemma TailLinesSingle(userName: Option<string>)
    requires userName.Some? ==> '\n' !in userName.value
    ensures forall k :: 0 <= k < |TailLines(userName)| ==> '\n' !in TailLines(userName)[k]
  {
    assert '\n' !in WishClosing && '\n' !in RecipientPrefix;
    if HasName(userName) {
      assert '\n' !in RecipientPrefix + userName.value;
    }
  }

  /** Read back line by line, a message is the lines of its head (for a user
      message, the denomination line), then the recipient line exactly when
      a non-empty name was given (with the name verbatim), then the closing
      line. A name that itself spans lines would add lines, hence the
      requirement. */
  lemma MessageStructure(head: string, userName: Option<string>)
    requires userName.Some? ==> '\n' !in userName.value
    ensures Split(Message(head, userName), '\n')
      == Split(head, '\n')
         + (if HasName(userName) then [RecipientPrefix + userName.value] else [])
         + [WishClosing]
  {
    TailLinesSingle(userName);
    SplitJoinAfter(head, TailLines(userName), '\n');
  }

  /** Whatever the name, a message opens with its head followed by a line
      break and ends with the closing instruction on a line of its own. */
  lemma MessageEnds(head: string, userName: Option<string>)
    ensures StartsWith(Message(head, userName), head + "\n")
    ensures EndsWith(Message(head, userName), "\n" + WishClosing)
  {
    JoinStartsWithFirst([head] + TailLines(userName), "\n");
    JoinEndsWithLast([head] + TailLines(userName), "\n");
  }
}
