/**
 * The user message for a fortune reading: the life domain's guidance, an
 * optional line naming the person drawing, and a fixed closing instruction,
 * one per line. The system prompt is a fixed text that asks for raw JSON.
 */
module FortunePrompt {
  import opened Wrappers
  import opened Text
  import opened Schemas

  /** Focus guidance per life domain; every domain has an entry. */
  function ModeGuidance(mode: FortuneMode): string
  {
    match mode
    case Random =>
      "Lĩnh vực: NGẪU NHIÊN – tự chọn lĩnh vực phù hợp nhất "
      + "(tài lộc, tình duyên, sức khỏe, công danh, hoặc gia đạo)."
    case TaiLoc =>
      "Lĩnh vực: TÀI LỘC – tập trung vào vận tiền tài, đầu tư, "
      + "kinh doanh, thu nhập."
    case TinhDuyen =>
      "Lĩnh vực: TÌNH DUYÊN – tập trung vào tình cảm, đào hoa, "
      + "hôn nhân, mối quan hệ."
    case SucKhoe =>
      "Lĩnh vực: SỨC KHỎE – tập trung vào thể chất, tinh thần, "
      + "bệnh tật, rèn luyện."
    case CongDanh =>
      "Lĩnh vực: CÔNG DANH – tập trung vào sự nghiệp, thăng tiến, "
      + "học tập, cơ hội nghề nghiệp."
    case GiaDao =>
      "Lĩnh vực: GIA ĐẠO – tập trung vào gia đình, con cái, "
      + "hòa thuận, nhà cửa."
  }

  /** The persona, the exact JSON shape and the rules, sent as the system
      message of every fortune request. */
  const FortuneSystemPrompt: string :=
    "Bạn là một thầy phong thủy uyên bác, chuyên luận giải quẻ đầu năm.\n"
    + "\n"
    + "QUY TẮC BẮT BUỘC:\n"
    + "1. Trả lời ĐÚNG BẰNG JSON, không markdown, không giải thích thêm.\n"
    + "2. JSON phải có đúng các trường sau:\n"
    + "   {\n"
    + "     \"title\": \"Tên quẻ 3-6 chữ Hán-Việt (VD: Thuận Lợi Hanh Thông)\",\n"
    + "     \"rating\": <số nguyên 1-5, 1=xấu, 5=cực tốt>,\n"
    + "     \"summary\": \"Tóm tắt 1 câu ngắn gọn\",\n"
    + "     \"detail\": \"Giải thích chi tiết 2-4 câu, đi sâu vào lĩnh vực được chọn\",\n"
    + "     \"advice\": \"Lời khuyên cụ thể, thực tế 1-2 câu\",\n"
    + "     \"lucky_element\": \"Yếu tố may mắn (màu sắc, số, hướng, vật phẩm...)\",\n"
    + "     \"emoji\": \"1 emoji đại diện duy nhất\"\n"
    + "   }\n"
    + "3. Nội dung phải MỚI MẺ, SÁNG TẠO mỗi lần, không lặp khuôn mẫu.\n"
    + "4. Giọng văn: trang trọng nhưng dễ hiểu, pha chút huyền bí.\n"
    + "5. Rating phải đa dạng (không phải lúc nào cũng tốt), phân bố tự nhiên.\n"
    + "6. Nếu có tên người bốc, có thể nhắc đến tên trong detail hoặc advice.\n"

  const DrawerPrefix: string := "Người bốc quẻ tên: "
  const FortuneClosing: string := "Hãy luận 1 quẻ:"

  /** The lines that follow the guidance: the drawer line when a non-empty
      name was given, then the closing line. */
  function TailLines(userName: Option<string>): seq<string>
  {
    (if HasName(userName) then [DrawerPrefix + userName.value] else []) + [FortuneClosing]
  }

  /** A user message around a first line `head`: the head, then the tail
      lines, joined by newlines. */
  function Message(head: string, userName: Option<string>): string
  {
    Join([head] + TailLines(userName), "\n")
  }

  /** The user message for a mode: its guidance is the first line. */
  function UserPrompt(mode: FortuneMode, userName: Option<string>): string
  {
    Message(ModeGuidance(mode), userName)
  }

  /** Builds the user message the way the service does: the mode's guidance
      is looked up, then the message is assembled around it. */
  method BuildFortunePrompt(mode: FortuneMode, userName: Option<string>) returns (prompt: string)
    ensures prompt == UserPrompt(mode, userName)
  {
    prompt := BuildMessage(ModeGuidance(mode), userName);
  }

  /** Assembles a message the way the service does: a list of parts that
      grows by appending, then joined with newlines. */
  method BuildMessage(head: string, userName: Option<string>) returns (prompt: string)
    ensures prompt == Message(head, userName)
  {
    var parts := [head];
    if HasName(userName) {
      parts := parts + [DrawerPrefix + userName.value];
    }
    parts := parts + [FortuneClosing];
    assert parts == [head] + TailLines(userName);
    prompt := Join(parts, "\n");
  }

  /** None of the lines after the guidance spans lines itself. */
  lemma TailLinesSingle(userName: Option<string>)
    requires userName.Some? ==> '\n' !in userName.value
    ensures forall k :: 0 <= k < |TailLines(userName)| ==> '\n' !in TailLines(userName)[k]
  {
    assert '\n' !in FortuneClosing && '\n' !in DrawerPrefix;
    if HasName(userName) {
      assert '\n' !in DrawerPrefix + userName.value;
    }
  }

  /** Read back line by line, a message is the lines of its head (for a user
      message, the mode's guidance), then the drawer line exactly when a
      non-empty name was given (with the name verbatim), then the closing
      line. A name that itself spans lines would add lines, hence the
      requirement. */
  lemma MessageStructure(head: string, userName: Option<string>)
    requires userName.Some? ==> '\n' !in userName.value
    ensures Split(Message(head, userName), '\n')
      == Split(head, '\n')
         + (if HasName(userName) then [DrawerPrefix + userName.value] else [])
         + [FortuneClosing]
  {
    TailLinesSingle(userName);
    SplitJoinAfter(head, TailLines(userName), '\n');
  }

  /** Whatever the name, a message opens with its head followed by a line
      break and ends with the closing instruction on a line of its own. */
  lemma MessageEnds(head: string, userName: Option<string>)
    ensures StartsWith(Message(head, userName), head + "\n")
    ensures EndsWith(Message(head, userName), "\n" + FortuneClosing)
  {
    JoinStartsWithFirst([head] + TailLines(userName), "\n");
    JoinEndsWithLast([head] + TailLines(userName), "\n");
  }
}
